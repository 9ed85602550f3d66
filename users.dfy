/**
 * The user and the insertion-ordered set of preferences it accumulates.
 */
module Users {

  /** No string occurs twice. */
  predicate Distinct(s: seq<string>)
  {
    forall i, j | 0 <= i < j < |s| :: s[i] != s[j]
  }

  /** The preference list after adding `p`: unchanged when `p` is already present,
      otherwise `p` appended at the end. */
  function WithPreference(prefs: seq<string>, p: string): (r: seq<string>)
    ensures p in r
    ensures forall x :: x in r <==> x in prefs || x == p
    ensures Distinct(prefs) ==> Distinct(r)
    ensures p in prefs ==> r == prefs
    ensures p !in prefs ==> r == prefs + [p]
  {
    if p in prefs then prefs else prefs + [p]
  }

  /** Adding the same preference again changes nothing. */
  lemma WithPreferenceIdempotent(prefs: seq<string>, p: string)
    ensures WithPreference(WithPreference(prefs, p), p) == WithPreference(prefs, p)
  {
  }

  /** The preference list after adding each string of `added` in turn. */
  function AddAll(prefs: seq<string>, added: seq<string>): (r: seq<string>)
    decreases |added|
  {
    if added == [] then prefs else AddAll(WithPreference(prefs, added[0]), added[1..])
  }

  /** Repeated additions keep the list free of duplicates. */
  lemma {:induction false} AddAllDistinct(prefs: seq<string>, added: seq<string>)
    requires Distinct(prefs)
    ensures Distinct(AddAll(prefs, added))
    decreases |added|
  {
    if added != [] {
      AddAllDistinct(WithPreference(prefs, added[0]), added[1..]);
    }
  }

  /** After repeated additions the list holds exactly the strings it started with and the strings added. */
  lemma {:induction false} AddAllMembership(prefs: seq<string>, added: seq<string>, x: string)
    ensures x in AddAll(prefs, added) <==> x in prefs || x in added
    decreases |added|
  {
    if added != [] {
      AddAllMembership(WithPreference(prefs, added[0]), added[1..], x);
      assert added == [added[0]] + added[1..];
    }
  }

  class User {
    var name: string
    var preferences: seq<string>

    constructor (name: string)
      ensures this.name == name && preferences == []
    {
      this.name := name;
      preferences := [];
    }

    /** Adds `p` unless it is already a preference. */
    method AddPreference(p: string)
      modifies this
      ensures preferences == WithPreference(old(preferences), p)
      ensures Distinct(old(preferences)) ==> Distinct(preferences)
      ensures name == old(name)
    {
      if p !in preferences {
        preferences := preferences + [p];
      }
    }
  }

  /** Adding "vegano" twice leaves a single preference. */
  method AddTwiceExample() returns (prefs: seq<string>)
    ensures prefs == ["vegano"]
  {
    var u := new User("Gabriel");
    u.AddPreference("vegano");
    u.AddPreference("vegano");
    prefs := u.preferences;
  }
}
