/**
 * The visitor id (src/utils/userId.ts): eight random characters, created on the first
 * visit and kept in `localStorage` under `turbo_wheel_user_id`. The random draws are
 * parameters; `onServer` is `typeof window === 'undefined'`.
 */
module UserId {
  import opened Common
  import opened Http
  import opened Storage

  const UserIdKey: string := "turbo_wheel_user_id"

  /** The 36 characters an id is made of. */
  const Alphabet: string := "abcdefghijklmnopqrstuvwxyz0123456789"

  /** `chars.charAt(Math.floor(random * chars.length))` for a draw in [0, 1). */
  function CharFor(random: real): char
    requires 0.0 <= random < 1.0
  {
    var i := (random * 36.0).Floor;
    assert 0 <= i < 36 by {
      assert 0.0 <= random * 36.0 < 36.0;
    }
    Alphabet[i]
  }

  /** Every draw picks a character of the alphabet. */
  lemma CharForInAlphabet(random: real)
    requires 0.0 <= random < 1.0
    ensures CharFor(random) in Alphabet
  {
  }

  /** The draws `Math.random()` is assumed to make: values in [0, 1). */
  predicate ValidDraws(draws: seq<real>) {
    forall k :: 0 <= k < |draws| ==> 0.0 <= draws[k] < 1.0
  }

  /** `generateShortId()` with `draws` for its eight calls of `Math.random()`. */
  method GenerateShortId(draws: seq<real>) returns (id: string)
    requires |draws| == 8 && ValidDraws(draws)
    ensures |id| == 8
    ensures forall k :: 0 <= k < 8 ==> id[k] == CharFor(draws[k])
    ensures forall k :: 0 <= k < |id| ==> id[k] in Alphabet
  {
    id := "";
    for i := 0 to 8
      invariant |id| == i
      invariant forall k :: 0 <= k < i ==> id[k] == CharFor(draws[k])
    {
      id := id + [CharFor(draws[i])];
    }
    forall k | 0 <= k < |id|
      ensures id[k] in Alphabet
    {
      CharForInAlphabet(draws[k]);
    }
  }

  /** `isNewUser()`: no (non-empty) id is stored; always false on the server. */
  predicate IsNewUser(store: LocalStorage, onServer: bool)
    reads store
  {
    !onServer && !Truthy(store.GetItem(UserIdKey))
  }

  /** `getUserId()`: the stored id, or a fresh one that is stored first; `server` on the
    * server, where storage is not touched. */
  method GetUserId(store: LocalStorage, onServer: bool, draws: seq<real>) returns (id: string)
    requires |draws| == 8 && ValidDraws(draws)
    modifies store
    ensures onServer ==> id == "server" && store.items == old(store.items)
    ensures !onServer && old(Truthy(store.GetItem(UserIdKey)))
            ==> id == old(store.items[UserIdKey]) && store.items == old(store.items)
    ensures !onServer && !old(Truthy(store.GetItem(UserIdKey)))
            ==> |id| == 8 && store.items == old(store.items)[UserIdKey := id]
    ensures !onServer && !old(Truthy(store.GetItem(UserIdKey)))
            ==> forall k :: 0 <= k < 8 ==> id[k] == CharFor(draws[k]) && id[k] in Alphabet
    ensures !onServer ==> Truthy(store.GetItem(UserIdKey)) && store.items[UserIdKey] == id
  {
    if onServer {
      return "server";
    }
    var stored := store.GetItem(UserIdKey);
    if !Truthy(stored) {
      id := GenerateShortId(draws);
      store.SetItem(UserIdKey, id);
    } else {
      id := stored.value;
    }
  }

  /** Two calls return the same id, the second changes nothing, and the visitor is no
    * longer new after the first. */
  method GetUserIdTwice(store: LocalStorage, draws1: seq<real>, draws2: seq<real>)
    returns (first: string, second: string)
    requires |draws1| == 8 && ValidDraws(draws1) && |draws2| == 8 && ValidDraws(draws2)
    modifies store
    ensures first == second
    ensures !IsNewUser(store, false)
  {
    first := GetUserId(store, false, draws1);
    ghost var between := store.items;
    second := GetUserId(store, false, draws2);
    assert store.items == between;
  }
}
