/**
 * The visit notification gate that runs when the page mounts (src/app/ClientBody.tsx,
 * lines 10-63): a first visit is announced once, a repeat visit at most once per day,
 * with the time of the last announcement kept in `localStorage`. The notification
 * request itself is left out; the gate reports which one it would send.
 */
module ClientBody {
  import opened Common
  import opened Http
  import opened JsString
  import opened Decimal
  import opened Storage
  import opened UserId

  const LastVisitKey: string := "turbo_wheel_last_visit"

  /** `24 * 60 * 60 * 1000` */
  const DayInMs: int := 24 * 60 * 60 * 1000

  /** The notification a mount sends, if any. */
  datatype Notification = Silent | Visit(userId: string) | RepeatVisit(userId: string)

  /** `!lastVisit || (now - parseInt(lastVisit)) > dayInMs`; a value `parseInt` reads as
    * `NaN` makes the comparison false. */
  predicate RepeatDue(lastVisit: Option<string>, now: int) {
    !Truthy(lastVisit)
    || (ParseInt(lastVisit.value).Some? && now - ParseInt(lastVisit.value).value > DayInMs)
  }

  /** The effect of one mount at time `now`; `draws` feed the id generator. */
  method OnMount(store: LocalStorage, now: int, draws: seq<real>) returns (sent: Notification)
    requires |draws| == 8 && ValidDraws(draws)
    modifies store
    ensures old(!Truthy(store.GetItem(UserIdKey)))
            ==> sent.Visit? && store.items == old(store.items)[UserIdKey := sent.userId]
    ensures old(Truthy(store.GetItem(UserIdKey))) && old(RepeatDue(store.GetItem(LastVisitKey), now))
            ==> sent == RepeatVisit(old(store.items[UserIdKey]))
                && store.items == old(store.items)[LastVisitKey := IntToString(now)]
    ensures old(Truthy(store.GetItem(UserIdKey))) && !old(RepeatDue(store.GetItem(LastVisitKey), now))
            ==> sent == Silent && store.items == old(store.items)
    ensures Truthy(store.GetItem(UserIdKey))
  {
    var firstVisit := IsNewUser(store, false);
    var uid := GetUserId(store, false, draws);
    if firstVisit {
      sent := Visit(uid);
    } else {
      var lastVisit := store.GetItem(LastVisitKey);
      if !Truthy(lastVisit) || (ParseInt(lastVisit.value).Some? && now - ParseInt(lastVisit.value).value > DayInMs) {
        store.SetItem(LastVisitKey, IntToString(now));
        sent := RepeatVisit(uid);
      } else {
        sent := Silent;
      }
    }
  }

  /** A recorded announcement at `t` makes the next one due exactly when more than a day
    * has passed. */
  lemma DueAfterADay(t: int, now: int)
    ensures RepeatDue(Some(IntToString(t)), now) <==> now - t > 86400000
  {
    ParseIntOfIntToString(t);
  }

  /** A stored value that does not start with a digit, sign or white space reads as `NaN`,
    * so no repeat visit is ever announced again. */
  lemma NonNumericStaysSilent(lastVisit: string, now: int)
    requires |lastVisit| > 0 && !IsDigit(lastVisit[0]) && !IsJsWhitespace(lastVisit[0])
    requires lastVisit[0] != '-' && lastVisit[0] != '+'
    ensures !RepeatDue(Some(lastVisit), now)
  {
    NoDigitIsNaN(lastVisit);
  }

  /** The mount after a first visit is a repeat visit with nothing recorded yet, so it is
    * announced at once; a third mount within the day after that is silent. */
  method ThreeMounts(store: LocalStorage, t1: int, t2: int, t3: int, draws: seq<real>)
    returns (n1: Notification, n2: Notification, n3: Notification)
    requires |draws| == 8 && ValidDraws(draws)
    requires !Truthy(store.GetItem(UserIdKey)) && LastVisitKey !in store.items
    requires t3 - t2 <= DayInMs
    modifies store
    ensures n1.Visit? && n2 == RepeatVisit(n1.userId) && n3 == Silent
  {
    n1 := OnMount(store, t1, draws);
    assert LastVisitKey !in store.items;
    n2 := OnMount(store, t2, draws);
    assert store.GetItem(LastVisitKey) == Some(IntToString(t2));
    DueAfterADay(t2, t3);
    n3 := OnMount(store, t3, draws);
  }
}
