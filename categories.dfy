/**
 * Brand categories from the master table (js/vis-bubble-map.js): the
 * normalisation of placeholder categories and the option list of the
 * category filter, "ALL" followed by the distinct categories in
 * ascending order.
 */
module Categories {

  /** A row of the master table: brand identifier `Brand#` and its `Category`. */
  datatype MasterRecord = MasterRecord(id: string, category: string)

  /** `accessor.master.id`: the key of `brandById`. */
  function MasterId(m: MasterRecord): string {
    m.id
  }

  /** `accessor.master.category`: empty and "?" categories read as "Other". */
  function NormaliseCategory(c: string): (r: string)
    ensures r != "" && r != "?"
    ensures r == c || r == "Other"
    ensures c != "" && c != "?" ==> r == c
  {
    if c == "" || c == "?" then "Other" else c
  }

  /** JavaScript's `<` on strings: lexicographic order on characters. */
  predicate Less(a: string, b: string) {
    if a == [] then b != []
    else if b == [] then false
    else a[0] < b[0] || (a[0] == b[0] && Less(a[1..], b[1..]))
  }

  lemma {:induction false} LessIrreflexive(a: string)
    ensures !Less(a, a)
  {
    if a != [] {
      LessIrreflexive(a[1..]);
    }
  }

  lemma {:induction false} LessTransitive(a: string, b: string, c: string)
    requires Less(a, b) && Less(b, c)
    ensures Less(a, c)
  {
    if a != [] && a[0] == b[0] && b[0] == c[0] {
      LessTransitive(a[1..], b[1..], c[1..]);
    }
  }

  lemma {:induction false} LessTotal(a: string, b: string)
    requires a != b
    ensures Less(a, b) || Less(b, a)
  {
    if a != [] && b != [] && a[0] == b[0] {
      assert a == [a[0]] + a[1..] && b == [b[0]] + b[1..];
      LessTotal(a[1..], b[1..]);
    }
  }

  ghost predicate StrictlyAscending(s: seq<string>) {
    forall i, j :: 0 <= i < j < |s| ==> Less(s[i], s[j])
  }

  /** Inserts `x` into an ascending sequence unless it is already there. */
  function InsertDistinct(x: string, t: seq<string>): seq<string> {
    if t == [] then [x]
    else if x == t[0] then t
    else if Less(x, t[0]) then [x] + t
    else [t[0]] + InsertDistinct(x, t[1..])
  }

  /** `[...new Set(s)].sort(d3.ascending)`. */
  function SortedDistinct(s: seq<string>): seq<string> {
    if s == [] then [] else InsertDistinct(s[0], SortedDistinct(s[1..]))
  }

  lemma {:induction false} InsertDistinctFacts(x: string, t: seq<string>)
    requires StrictlyAscending(t)
    ensures StrictlyAscending(InsertDistinct(x, t))
    ensures forall y :: y in InsertDistinct(x, t) <==> y == x || y in t
  {
    var r := InsertDistinct(x, t);
    if t == [] || x == t[0] {
    } else if Less(x, t[0]) {
      forall i, j | 0 <= i < j < |r| ensures Less(r[i], r[j]) {
        if i == 0 && j > 1 {
          LessTransitive(x, t[0], t[j - 1]);
        }
      }
    } else {
      InsertDistinctFacts(x, t[1..]);
      LessTotal(x, t[0]);
      assert t == [t[0]] + t[1..];
      forall j | 0 < j < |r| ensures Less(r[0], r[j]) {
        assert r[j] in InsertDistinct(x, t[1..]);
      }
    }
  }

  lemma {:induction false} SortedDistinctFacts(s: seq<string>)
    ensures StrictlyAscending(SortedDistinct(s))
    ensures forall y :: y in SortedDistinct(s) <==> y in s
  {
    if s != [] {
      SortedDistinctFacts(s[1..]);
      InsertDistinctFacts(s[0], SortedDistinct(s[1..]));
      assert s == [s[0]] + s[1..];
    }
  }

  lemma HeadsAgree(a: seq<string>, b: seq<string>)
    requires StrictlyAscending(a) && StrictlyAscending(b)
    requires forall y :: y in a <==> y in b
    requires a != [] && b != []
    ensures a[0] == b[0]
  {
    assert a[0] in a && b[0] in b;
    var k :| 0 <= k < |b| && b[k] == a[0];
    var m :| 0 <= m < |a| && a[m] == b[0];
    if k != 0 && m != 0 {
      LessTransitive(a[0], b[0], a[0]);
      LessIrreflexive(a[0]);
    }
  }

  /**
   * A strictly ascending sequence is determined by its elements: any
   * strictly ascending arrangement of the same strings is the same sequence.
   */
  lemma {:induction false} StrictlyAscendingUnique(a: seq<string>, b: seq<string>)
    requires StrictlyAscending(a) && StrictlyAscending(b)
    requires forall y :: y in a <==> y in b
    ensures a == b
  {
    assert a != [] ==> a[0] in b;
    assert b != [] ==> b[0] in a;
    if a != [] && b != [] {
      HeadsAgree(a, b);
      forall y ensures y in a[1..] <==> y in b[1..] {
        if y in a[1..] {
          var i :| 1 <= i < |a| && a[i] == y;
          assert Less(a[0], y);
          if y == b[0] {
            LessIrreflexive(y);
          }
          assert y in b;
        }
        if y in b[1..] {
          var i :| 1 <= i < |b| && b[i] == y;
          assert Less(b[0], y);
          if y == a[0] {
            LessIrreflexive(y);
          }
          assert y in a;
        }
      }
      StrictlyAscendingUnique(a[1..], b[1..]);
      assert a == [a[0]] + a[1..] && b == [b[0]] + b[1..];
    }
  }

  function NormalisedCategories(master: seq<MasterRecord>): (r: seq<string>)
    ensures |r| == |master|
    ensures forall i :: 0 <= i < |master| ==> r[i] == NormaliseCategory(master[i].category)
  {
    if master == [] then [] else [NormaliseCategory(master[0].category)] + NormalisedCategories(master[1..])
  }

  /**
   * The category filter's options: "ALL", then every normalised master
   * category exactly once, in ascending order.
   */
  function CategoryOptions(master: seq<MasterRecord>): (r: seq<string>)
    ensures |r| >= 1 && r[0] == "ALL"
    ensures StrictlyAscending(r[1..])
    ensures forall c :: c in r[1..] <==> exists i :: 0 <= i < |master| && NormaliseCategory(master[i].category) == c
  {
    var tail := SortedDistinct(NormalisedCategories(master));
    SortedDistinctFacts(NormalisedCategories(master));
    assert (["ALL"] + tail)[1..] == tail;
    ["ALL"] + tail
  }
}
