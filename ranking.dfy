/** The feature-importance table of lines 102-104 and 122-127: each feature name paired with the
    forest's importance for it, ordered from the most to the least important. */
module Ranking {

  datatype Importance = Importance(feature: string, importance: real)

  /** `pd.DataFrame({'feature': features, 'importance': importances})`: row i pairs the i-th
      name with the i-th importance. */
  function Zip(names: seq<string>, imps: seq<real>): (r: seq<Importance>)
    requires |names| == |imps|
    ensures |r| == |names|
    ensures forall i :: 0 <= i < |r| ==> r[i] == Importance(names[i], imps[i])
  {
    seq(|names|, i requires 0 <= i < |names| => Importance(names[i], imps[i]))
  }

  /** Non-increasing by importance, as `sort_values('importance', ascending=False)` leaves it. */
  predicate Descending(s: seq<Importance>) {
    forall i, j :: 0 <= i < j < |s| ==> s[i].importance >= s[j].importance
  }

  /** Places x in front of the first entry it is at least as important as. */
  function Insert(x: Importance, s: seq<Importance>): (r: seq<Importance>)
    ensures |r| == |s| + 1
    ensures multiset(r) == multiset(s) + multiset{x}
    ensures Descending(s) ==> Descending(r)
  {
    if s == [] then [x]
    else if x.importance >= s[0].importance then
      assert Descending(s) ==> Descending([x] + s) by {
        if Descending(s) {
          forall i, j | 0 <= i < j < |[x] + s| ensures ([x] + s)[i].importance >= ([x] + s)[j].importance {
            if i == 0 && j > 0 { assert s[0].importance >= s[j - 1].importance || j == 1; }
          }
        }
      }
      [x] + s
    else
      var rest := Insert(x, s[1..]);
      assert s == [s[0]] + s[1..];
      InsertBelow(x, s, rest);
      [s[0]] + rest
  }

  /** Inserting below the head keeps the head first: every entry of the tail and x itself are no
      more important than it. */
  lemma InsertBelow(x: Importance, s: seq<Importance>, rest: seq<Importance>)
    requires s != [] && x.importance < s[0].importance
    requires multiset(rest) == multiset(s[1..]) + multiset{x}
    requires Descending(s[1..]) ==> Descending(rest)
    ensures Descending(s) ==> Descending([s[0]] + rest)
  {
    if Descending(s) {
      assert Descending(s[1..]) by {
        forall i, j | 0 <= i < j < |s[1..]| ensures s[1..][i].importance >= s[1..][j].importance {
          assert s[1..][i] == s[i + 1] && s[1..][j] == s[j + 1];
        }
      }
      forall k | 0 <= k < |rest| ensures s[0].importance >= rest[k].importance {
        assert rest[k] in multiset(rest);
        if rest[k] != x {
          assert rest[k] in multiset(s[1..]);
          var m :| 0 <= m < |s[1..]| && s[1..][m] == rest[k];
          assert s[m + 1] == rest[k];
        }
      }
      var r := [s[0]] + rest;
      forall i, j | 0 <= i < j < |r| ensures r[i].importance >= r[j].importance {
        if i == 0 {
          assert r[j] == rest[j - 1];
        } else {
          assert r[i] == rest[i - 1] && r[j] == rest[j - 1];
        }
      }
    }
  }

  /** The ranked table: a reordering of the entries that is non-increasing by importance. Equal
      importances keep their original order here; pandas' default sort leaves their order
      unspecified. */
  function SortByImportance(s: seq<Importance>): (r: seq<Importance>)
    ensures |r| == |s|
    ensures multiset(r) == multiset(s)
    ensures Descending(r)
  {
    if s == [] then []
    else
      assert s == [s[0]] + s[1..];
      Insert(s[0], SortByImportance(s[1..]))
  }

  /** The names of the entries, in order. */
  function Names(s: seq<Importance>): (r: seq<string>)
    ensures |r| == |s| && forall i :: 0 <= i < |s| ==> r[i] == s[i].feature
  {
    if s == [] then [] else [s[0].feature] + Names(s[1..])
  }

  /** The ranking of line 104 lists every feature exactly as often as it was given, each with the
      importance the forest gave it, and nothing else. */
  lemma {:induction false} RankingIsPermutation(names: seq<string>, imps: seq<real>)
    requires |names| == |imps|
    ensures var r := SortByImportance(Zip(names, imps));
      && |r| == |names| && Descending(r)
      && multiset(Names(r)) == multiset(names)
      && (forall k :: 0 <= k < |r| ==> exists i :: 0 <= i < |names| && r[k] == Importance(names[i], imps[i]))
      && (forall i :: 0 <= i < |names| ==> Importance(names[i], imps[i]) in r)
  {
    var z := Zip(names, imps);
    var r := SortByImportance(z);
    SortNames(z);
    ZipNames(names, imps);
    SameMembers(r, z);
    forall k | 0 <= k < |r| ensures exists i :: 0 <= i < |names| && r[k] == Importance(names[i], imps[i]) {
      assert r[k] in z;
    }
    forall i | 0 <= i < |names| ensures Importance(names[i], imps[i]) in r {
      assert z[i] in z;
    }
  }

  /** Two orderings of the same entries have the same members. */
  lemma SameMembers(r: seq<Importance>, s: seq<Importance>)
    requires multiset(r) == multiset(s)
    ensures forall x :: x in r <==> x in s
  {
    forall x ensures x in r <==> x in s {
      assert x in r <==> x in multiset(r);
      assert x in s <==> x in multiset(s);
    }
  }

  /** The names of the zipped table are the names it was built from. */
  lemma ZipNames(names: seq<string>, imps: seq<real>)
    requires |names| == |imps|
    ensures Names(Zip(names, imps)) == names
  {
    var f := Names(Zip(names, imps));
    assert forall i :: 0 <= i < |f| ==> f[i] == names[i];
  }

  /** Inserting an entry adds its name to the names. */
  lemma {:induction false} InsertNames(x: Importance, s: seq<Importance>)
    ensures multiset(Names(Insert(x, s))) == multiset(Names(s)) + multiset{x.feature}
  {
    if s != [] && x.importance < s[0].importance {
      InsertNames(x, s[1..]);
      var r := Insert(x, s);
      assert r[1..] == Insert(x, s[1..]);
    } else {
      var r := Insert(x, s);
      assert r[1..] == s;
    }
  }

  /** Ranking reorders the names the way it reorders the entries. */
  lemma {:induction false} SortNames(s: seq<Importance>)
    ensures multiset(Names(SortByImportance(s))) == multiset(Names(s))
  {
    if s != [] {
      SortNames(s[1..]);
      InsertNames(s[0], SortByImportance(s[1..]));
    }
  }
}
