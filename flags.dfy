/** The flags of a parsed invocation (`cli.flags`): an object from flag name to
    value, kept here as an association list so that the object's key order,
    which the deploy echo shows, is part of the model. */
module Flags {
  import opened Wrappers

  /** A flag given once carries a single string; a flag given several times
      carries the list of its values in the order they were given. */
  datatype FlagValue = Scalar(s: string) | Multi(xs: seq<string>)

  type FlagList = seq<(string, FlagValue)>

  /** A JavaScript object never holds the same own key twice. */
  ghost predicate UniqueKeys(flags: FlagList) {
    forall i, j :: 0 <= i < j < |flags| ==> flags[i].0 != flags[j].0
  }

  /** `flags[key]`: the value stored under `key`, or `undefined`. */
  function Lookup(flags: FlagList, key: string): (r: Option<FlagValue>)
    ensures r.None? <==> forall i :: 0 <= i < |flags| ==> flags[i].0 != key
    ensures r.Some? ==> (key, r.value) in flags
  {
    if flags == [] then None
    else if flags[0].0 == key then Some(flags[0].1)
    else Lookup(flags[1..], key)
  }

  /** With unique keys, a key's value is the one its entry carries. */
  lemma LookupUnique(flags: FlagList, key: string, v: FlagValue)
    requires UniqueKeys(flags)
    ensures Lookup(flags, key) == Some(v) <==> (key, v) in flags
  {
  }

  /** `_.omit(flags, [key])`: every entry except the one under `key`, in the
      same order. */
  function Omit(flags: FlagList, key: string): (r: FlagList)
    ensures forall p :: p in r <==> p in flags && p.0 != key
    ensures |r| <= |flags|
  {
    if flags == [] then []
    else if flags[0].0 == key then Omit(flags[1..], key)
    else [flags[0]] + Omit(flags[1..], key)
  }

  /** Omitting works entry by entry, so the relative order of the kept
      entries is the order they were given in. */
  lemma {:induction false} OmitAppend(a: FlagList, b: FlagList, key: string)
    ensures Omit(a + b, key) == Omit(a, key) + Omit(b, key)
  {
    if a != [] {
      assert (a + b)[0] == a[0] && (a + b)[1..] == a[1..] + b;
      OmitAppend(a[1..], b, key);
    } else {
      assert a + b == b;
    }
  }

  /** Nothing is altered when the key is absent. */
  lemma {:induction false} OmitAbsent(flags: FlagList, key: string)
    requires Lookup(flags, key).None?
    ensures Omit(flags, key) == flags
  {
    if flags != [] {
      OmitAbsent(flags[1..], key);
    }
  }

  /** Every key other than the omitted one looks up exactly as before, and the
      omitted one is gone. */
  lemma {:induction false} LookupOmit(flags: FlagList, key: string, k: string)
    ensures Lookup(Omit(flags, key), k) == if k == key then None else Lookup(flags, k)
  {
    if flags != [] {
      LookupOmit(flags[1..], key, k);
    }
  }

  /** Omitting keeps the object's keys unique. */
  lemma {:induction false} OmitUnique(flags: FlagList, key: string)
    requires UniqueKeys(flags)
    ensures UniqueKeys(Omit(flags, key))
  {
    if flags != [] {
      var rest := flags[1..];
      assert UniqueKeys(rest) by {
        forall i, j | 0 <= i < j < |rest| ensures rest[i].0 != rest[j].0 {
          assert rest[i] == flags[i + 1] && rest[j] == flags[j + 1];
        }
      }
      OmitUnique(rest, key);
      var o := Omit(rest, key);
      if flags[0].0 != key {
        forall j | 0 <= j < |o| ensures flags[0].0 != o[j].0 {
          assert o[j] in rest;
          var m :| 0 <= m < |rest| && rest[m] == o[j];
          assert flags[m + 1] == o[j];
        }
        var r := [flags[0]] + o;
        forall i, j | 0 <= i < j < |r| ensures r[i].0 != r[j].0 {
          if i == 0 {
            assert r[j] == o[j - 1];
          } else {
            assert r[i] == o[i - 1] && r[j] == o[j - 1];
          }
        }
      }
    }
  }

  /** JavaScript truthiness of a flag value: the empty string is falsy; an
      array is truthy even when it is empty. */
  predicate Truthy(v: FlagValue): (b: bool)
    ensures v.Scalar? ==> (b <==> |v.s| > 0)
    ensures v.Multi? ==> b
  {
    match v
    case Scalar(s) => s != ""
    case Multi(_) => true
  }

  /** The strings a flag value was given, in order. */
  function Values(v: FlagValue): seq<string> {
    match v
    case Scalar(s) => [s]
    case Multi(xs) => xs
  }

  /** How the argument parser stores the values of a flag it saw one or more
      times: once gives a scalar, several times a list. */
  function Accumulated(occurrences: seq<string>): (v: FlagValue)
    requires |occurrences| >= 1
    ensures Values(v) == occurrences
    ensures v.Scalar? <==> |occurrences| == 1
  {
    if |occurrences| == 1 then Scalar(occurrences[0]) else Multi(occurrences)
  }
}
