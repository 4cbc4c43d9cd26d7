/**
 * Iteration order of `std::map<std::string, V>` (used by `sdk_request::headers`,
 * `sdk_response::headers` and nlohmann's JSON objects): ascending keys under
 * `std::string`'s `operator<`. The model keeps such maps as Dafny `map`s, whose
 * last-write-wins `m[k := v]` is `operator[]` assignment, and visits them in the
 * order `SortedKeys` gives.
 */
module OrderedKeys {

  /** `std::string` `operator<`: lexicographic on character codes. */
  predicate Less(a: string, b: string)
    decreases |a|
  {
    if a == [] then b != []
    else b != [] && (a[0] < b[0] || (a[0] == b[0] && Less(a[1..], b[1..])))
  }

  lemma {:induction false} LessIrreflexive(a: string)
    ensures !Less(a, a)
    decreases |a|
  {
    if a != [] {
      LessIrreflexive(a[1..]);
    }
  }

  lemma {:induction false} LessTransitive(a: string, b: string, c: string)
    requires Less(a, b) && Less(b, c)
    ensures Less(a, c)
    decreases |a|
  {
    if a != [] && a[0] == b[0] && b[0] == c[0] {
      LessTransitive(a[1..], b[1..], c[1..]);
    }
  }

  lemma {:induction false} LessTotal(a: string, b: string)
    requires a != b
    ensures Less(a, b) || Less(b, a)
    decreases |a|
  {
    if a != [] && b != [] && a[0] == b[0] {
      LessTotal(a[1..], b[1..]);
    }
  }

  lemma LessAsymmetric()
    ensures forall a, b :: Less(a, b) ==> !Less(b, a)
  {
    forall a, b | Less(a, b) ensures !Less(b, a) {
      if Less(b, a) {
        LessTransitive(a, b, a);
        LessIrreflexive(a);
      }
    }
  }

  predicate IsLeast(m: string, s: set<string>) {
    m in s && forall k {:trigger Less(m, k)} :: k in s && k != m ==> Less(m, k)
  }

  lemma {:induction false} LeastExists(s: set<string>)
    requires s != {}
    ensures exists m :: IsLeast(m, s)
    decreases |s|
  {
    var x :| x in s;
    var rest := s - {x};
    if rest == {} {
      assert s == {x};
      assert IsLeast(x, s);
    } else {
      LeastExists(rest);
      var m :| IsLeast(m, rest);
      if Less(x, m) {
        forall k | k in s && k != x ensures Less(x, k) {
          if k != m {
            LessTransitive(x, m, k);
          }
        }
        assert IsLeast(x, s);
      } else {
        LessTotal(x, m);
        assert IsLeast(m, s);
      }
    }
  }

  /** A set has at most one least key. */
  lemma LeastUnique(s: set<string>)
    ensures forall m1, m2 :: IsLeast(m1, s) && IsLeast(m2, s) ==> m1 == m2
  {
    forall m1, m2 | IsLeast(m1, s) && IsLeast(m2, s) ensures m1 == m2 {
      if m1 != m2 {
        assert Less(m1, m2) && Less(m2, m1);
        LessTransitive(m1, m2, m1);
        LessIrreflexive(m1);
      }
    }
  }

  /** The smallest key of a non-empty key set. */
  function Least(s: set<string>): (m: string)
    requires s != {}
    ensures m in s
  {
    LeastExists(s);
    LeastUnique(s);
    var m :| IsLeast(m, s);
    m
  }

  /** `Least` is below every other key of the set. */
  lemma LeastIsLeast(s: set<string>)
    requires s != {}
    ensures IsLeast(Least(s), s)
  {
    LeastExists(s);
  }

  predicate StrictlyAscending(ks: seq<string>) {
    forall i, j :: 0 <= i < j < |ks| ==> Less(ks[i], ks[j])
  }

  /** The keys of a map in `std::map` iteration order (`SortedKeysMembers` and `SortedKeysOrdered` state it). */
  function SortedKeys(s: set<string>): seq<string>
    decreases |s|
  {
    if s == {} then []
    else
      var m := Least(s);
      var rest := SortedKeys(s - {m});
      [m] + rest
  }

  /** `SortedKeys` lists as many keys as the set holds, each of them from the set. */
  lemma {:induction false} SortedKeysMembers(s: set<string>)
    ensures |SortedKeys(s)| == |s|
    ensures forall i :: 0 <= i < |SortedKeys(s)| ==> SortedKeys(s)[i] in s
    decreases |s|
  {
    if s != {} {
      SortedKeysMembers(s - {Least(s)});
    }
  }

  /** `SortedKeys` lists each key of the set once, in ascending order. */
  lemma {:induction false} SortedKeysOrdered(s: set<string>)
    ensures StrictlyAscending(SortedKeys(s))
    ensures forall k :: k in s <==> k in SortedKeys(s)
    decreases |s|
  {
    if s != {} {
      var m := Least(s);
      var rest := SortedKeys(s - {m});
      SortedKeysOrdered(s - {m});
      SortedKeysMembers(s - {m});
      LeastIsLeast(s);
      assert SortedKeys(s) == [m] + rest;
      forall i, j | 0 <= i < j < |[m] + rest| ensures Less(([m] + rest)[i], ([m] + rest)[j]) {
        if i == 0 {
          assert rest[j - 1] in s - {m};
        }
      }
    }
  }

  /** Ascending key sequences hold no key twice. */
  lemma AscendingDistinct(ks: seq<string>, i: nat, j: nat)
    requires StrictlyAscending(ks)
    requires i < j < |ks|
    ensures ks[i] != ks[j]
  {
    LessIrreflexive(ks[i]);
  }
}
