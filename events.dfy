/**
 * Event reports and their `general information` attributes.
 *
 * The attributes are a `std::map<std::string, std::string>` in the client: an
 * ordered dictionary whose iteration order is ascending key order.  It is
 * modelled as an association list whose keys strictly ascend under the
 * byte-wise string order `StrLess`.
 */
module Events {
  import opened Wrappers
  import opened Strings
  import opened Sorting

  type Info = seq<(string, string)>

  /** Keys strictly ascend, so each key occurs once and iteration is in key order. */
  ghost predicate Ordered(info: Info)
  {
    forall i, j :: 0 <= i < j < |info| ==> StrLess(info[i].0, info[j].0)
  }

  function Keys(info: Info): set<string>
  {
    set i | 0 <= i < |info| :: info[i].0
  }

  lemma KeysCons(info: Info)
    requires info != []
    ensures Keys(info) == {info[0].0} + Keys(info[1..])
  {
    forall k | k in Keys(info) ensures k in {info[0].0} + Keys(info[1..]) {
      var i :| 0 <= i < |info| && info[i].0 == k;
      if i > 0 { assert info[1..][i - 1].0 == k; }
    }
    forall k | k in Keys(info[1..]) ensures k in Keys(info) {
      var i :| 0 <= i < |info[1..]| && info[1..][i].0 == k;
      assert info[i + 1].0 == k;
    }
  }

  /** `info.at(key)` / `info.find(key)`: the value stored under `key`, if any. */
  function At(info: Info, key: string): Option<string>
  {
    if info == [] then None
    else if info[0].0 == key then Some(info[0].1)
    else At(info[1..], key)
  }

  /** A lookup succeeds exactly for the stored keys, and yields a stored pair. */
  lemma {:induction false} AtKeys(info: Info, key: string)
    ensures At(info, key).Some? <==> key in Keys(info)
    ensures At(info, key).Some? ==> exists i :: 0 <= i < |info| && info[i] == (key, At(info, key).value)
  {
    if info != [] {
      KeysCons(info);
      if info[0].0 != key {
        AtKeys(info[1..], key);
        if At(info, key).Some? {
          var i :| 0 <= i < |info[1..]| && info[1..][i] == (key, At(info, key).value);
          assert info[i + 1] == (key, At(info, key).value);
        }
      }
    }
  }

  /** `info[key] = value`: replaces the value of `key`, or inserts the pair in key order. */
  function Put(info: Info, key: string, value: string): Info
  {
    if info == [] then [(key, value)]
    else if info[0].0 == key then [(key, value)] + info[1..]
    else if StrLess(key, info[0].0) then [(key, value)] + info
    else [info[0]] + Put(info[1..], key, value)
  }

  /** After `info[key] = value`, `key` maps to `value` and every other key is unaffected. */
  lemma {:induction false} AtPut(info: Info, key: string, value: string, other: string)
    ensures At(Put(info, key, value), other) == if other == key then Some(value) else At(info, other)
  {
    if info != [] && info[0].0 != key && !StrLess(key, info[0].0) {
      AtPut(info[1..], key, value, other);
    }
  }

  /** Every key of `Put(info, key, value)` is `key` or a key of `info`, and `key` is one. */
  lemma {:induction false} KeysPut(info: Info, key: string, value: string)
    ensures Keys(Put(info, key, value)) == Keys(info) + {key}
  {
    if info == [] {
      assert Put(info, key, value)[0].0 == key;
    } else {
      var r := Put(info, key, value);
      KeysCons(info);
      KeysCons(r);
      if info[0].0 == key {
        assert r[1..] == info[1..];
      } else if StrLess(key, info[0].0) {
        assert r[1..] == info;
      } else {
        KeysPut(info[1..], key, value);
        assert r[1..] == Put(info[1..], key, value);
      }
    }
  }

  /** Every key in `info` is above `key`. */
  ghost predicate AllAbove(info: Info, key: string)
  {
    forall i :: 0 <= i < |info| ==> StrLess(key, info[i].0)
  }

  lemma {:induction false} PutAbove(info: Info, key: string, value: string, low: string)
    requires AllAbove(info, low) && StrLess(low, key)
    ensures AllAbove(Put(info, key, value), low)
  {
    KeysPut(info, key, value);
    var r := Put(info, key, value);
    forall i | 0 <= i < |r| ensures StrLess(low, r[i].0) {
      assert r[i].0 in Keys(r);
      if r[i].0 != key {
        var j :| 0 <= j < |info| && info[j].0 == r[i].0;
      }
    }
  }

  /** Assignment keeps the keys strictly ascending, so iteration stays in key order. */
  lemma {:induction false} PutOrdered(info: Info, key: string, value: string)
    requires Ordered(info)
    ensures Ordered(Put(info, key, value))
  {
    if info == [] {
    } else if info[0].0 == key {
    } else if StrLess(key, info[0].0) {
      var r := [(key, value)] + info;
      forall i, j | 0 <= i < j < |r| ensures StrLess(r[i].0, r[j].0) {
        if i == 0 && j > 1 {
          StrLessTransitive(key, info[0].0, info[j - 1].0);
        }
      }
    } else {
      StrLessTotal(key, info[0].0);
      PutOrdered(info[1..], key, value);
      assert AllAbove(info[1..], info[0].0);
      PutAbove(info[1..], key, value, info[0].0);
    }
  }

  /** Entering pairs in ascending key order into an empty map rebuilds the list itself. */
  function FromPairs(pairs: Info): Info
  {
    if pairs == [] then [] else Put(FromPairs(pairs[..|pairs| - 1]), pairs[|pairs| - 1].0, pairs[|pairs| - 1].1)
  }

  lemma {:induction false} PutLargest(info: Info, key: string, value: string)
    requires forall i :: 0 <= i < |info| ==> StrLess(info[i].0, key)
    ensures Put(info, key, value) == info + [(key, value)]
  {
    if info != [] {
      StrLessIrreflexive(key);
      StrLessAsymmetric(info[0].0, key);
      PutLargest(info[1..], key, value);
      assert info == [info[0]] + info[1..];
    }
  }

  lemma {:induction false} FromOrderedPairs(pairs: Info)
    requires Ordered(pairs)
    ensures FromPairs(pairs) == pairs
  {
    if pairs != [] {
      var init := pairs[..|pairs| - 1];
      FromOrderedPairs(init);
      PutLargest(init, pairs[|pairs| - 1].0, pairs[|pairs| - 1].1);
      assert init + [pairs[|pairs| - 1]] == pairs;
    }
  }

  /** One event report, as the client's `Event` record holds it. */
  datatype Event = Event(
    channel: string,
    city: string,
    name: string,
    dateTime: int,
    description: string,
    generalInformation: Info)

  /** The report order of `constructReportFrames`: by time alone. */
  predicate TimeLe(a: Event, b: Event)
  {
    a.dateTime <= b.dateTime
  }

  /** The strict order of the summary: by time, then by event name. */
  predicate SummaryLess(a: Event, b: Event)
  {
    if a.dateTime != b.dateTime then a.dateTime < b.dateTime else StrLess(a.name, b.name)
  }

  /** "Not after": the preorder induced by `SummaryLess`. */
  predicate SummaryLe(a: Event, b: Event)
  {
    !SummaryLess(b, a)
  }

  lemma TimeLeTotalPreorder()
    ensures TotalPreorder(TimeLe)
  {
  }

  lemma SummaryLeTotalPreorder()
    ensures TotalPreorder(SummaryLe)
  {
    forall a: Event, b: Event ensures SummaryLe(a, b) || SummaryLe(b, a) {
      if a.dateTime == b.dateTime && StrLess(a.name, b.name) {
        StrLessAsymmetric(a.name, b.name);
      }
    }
    forall a: Event, b: Event, c: Event | SummaryLe(a, b) && SummaryLe(b, c) ensures SummaryLe(a, c) {
      if a.dateTime == b.dateTime == c.dateTime && StrLess(c.name, a.name) && b.name != c.name {
        StrLessTotal(b.name, c.name);
        StrLessTransitive(b.name, c.name, a.name);
      }
    }
  }
}
