/**
 * The read-only guard both servers run before a user query reaches the
 * database (shared_code/mcp_server.py and bmi_server.py carry the same
 * code): the query is trimmed and upper-cased, must start with `SELECT`,
 * and must not contain any deny-listed word anywhere, even inside an
 * identifier or a literal.
 */
module QueryFilter {
  import opened Text

  const DangerousKeywords: seq<string> := ["DROP", "DELETE", "INSERT", "UPDATE", "ALTER", "CREATE", "TRUNCATE"]

  const NotSelectMessage := "Only SELECT queries are allowed for security reasons"
  const DangerousMessage := "Query contains potentially dangerous keywords. Only SELECT queries are allowed."

  datatype Verdict = Allowed | NotSelect | Dangerous

  /** `query.strip().upper()` */
  function Normalized(query: string): string {
    Upper(Strip(query))
  }

  /** Some deny-listed word occurs in `text`. */
  predicate HasDangerousKeyword(text: string) {
    exists k :: 0 <= k < |DangerousKeywords| && Contains(text, DangerousKeywords[k])
  }

  /** The two checks, in the order the servers run them. */
  function Check(query: string): (v: Verdict)
    ensures v == NotSelect <==> !StartsWith(Normalized(query), "SELECT")
    ensures v == Allowed <==>
              StartsWith(Normalized(query), "SELECT") && !HasDangerousKeyword(Normalized(query))
  {
    var t := Normalized(query);
    if !StartsWith(t, "SELECT") then NotSelect
    else if HasDangerousKeyword(t) then Dangerous
    else Allowed
  }

  /** The error text a refused query is answered with. */
  function RefusalMessage(v: Verdict): (m: string)
    requires v != Allowed
  {
    if v == NotSelect then NotSelectMessage else DangerousMessage
  }

  lemma {:induction false} LeadingSpacesUpper(s: string)
    ensures LeadingSpaces(Upper(s)) == LeadingSpaces(s)
    decreases |s|
  {
    if |s| > 0 {
      assert Upper(s)[1..] == Upper(s[1..]);
      LeadingSpacesUpper(s[1..]);
    }
  }

  lemma {:induction false} TrailingEndUpper(s: string)
    ensures TrailingEnd(Upper(s)) == TrailingEnd(s)
    decreases |s|
  {
    if |s| > 0 {
      assert Upper(s)[..|s| - 1] == Upper(s[..|s| - 1]);
      TrailingEndUpper(s[..|s| - 1]);
    }
  }

  lemma UpperCharSpace(c: char)
    ensures IsSpace(UpperChar(c)) <==> IsSpace(c)
  {
  }

  /** Trimming and upper-casing commute, since no letter is whitespace. */
  lemma StripUpper(s: string)
    ensures Strip(Upper(s)) == Upper(Strip(s))
  {
    var b := LeadingSpaces(s);
    LeadingSpacesUpper(s);
    assert Upper(s)[b..] == Upper(s[b..]);
    TrailingEndUpper(s[b..]);
    var e := TrailingEnd(s[b..]);
    assert Upper(s[b..])[..e] == Upper(s[b..][..e]);
  }

  /** The guard ignores letter case: queries equal up to case get the same verdict. */
  lemma CaseInsensitive(a: string, b: string)
    requires Upper(a) == Upper(b)
    ensures Check(a) == Check(b)
  {
    StripUpper(a);
    StripUpper(b);
  }

  lemma UpperSlice(s: string, lo: int, r: string)
    requires 0 <= lo && lo + |r| <= |s| && r == s[lo..lo + |r|]
    ensures Upper(r) == Upper(s)[lo..lo + |r|]
  {
  }

  lemma SliceOfSlice(u: string, lo: int, hi: int, x: int, y: int)
    requires 0 <= lo <= hi <= |u| && 0 <= x <= y <= hi - lo
    ensures u[lo..hi][x..y] == u[lo + x..lo + y]
  {
    assert forall j :: 0 <= j < y - x ==> u[lo..hi][x..y][j] == u[lo + x + j];
  }

  /** An occurrence inside a slice is one in the slice, shifted by its start. */
  lemma OccurrenceInSlice(u: string, n: string, w: string, lo: int, hi: int, i: int)
    requires 0 <= lo <= i && i + |w| <= hi <= |u| && OccursAt(u, w, i) && n == u[lo..hi]
    ensures OccursAt(n, w, i - lo)
  {
    SliceOfSlice(u, lo, hi, i - lo, i - lo + |w|);
  }

  /** The trimmed, upper-cased query is a slice of the upper-cased query. */
  lemma NormalizedIsSlice(q: string)
    ensures LeadingSpaces(q) + |Strip(q)| <= |q|
    ensures Normalized(q) == Upper(q)[LeadingSpaces(q)..LeadingSpaces(q) + |Strip(q)|]
  {
    var b, r := LeadingSpaces(q), Strip(q);
    UpperSlice(q, b, r);
    assert Normalized(q) == Upper(r);
  }

  /** An occurrence in the trimmed text is one in the untrimmed text. */
  lemma TrimmedOccurrenceIsRaw(q: string, w: string)
    requires Contains(Normalized(q), w)
    ensures Contains(Upper(q), w)
  {
    var u, b, r := Upper(q), LeadingSpaces(q), Strip(q);
    NormalizedIsSlice(q);
    var n := Normalized(q);
    assert n == u[b..b + |r|];
    var i := ContainsOccursAt(n, w);
    SliceOfSlice(u, b, b + |r|, i, i + |w|);
    OccursAtContains(u, w, b + i);
  }

  /** Both ends of such an occurrence are non-space, so both lie in the trimmed part. */
  lemma OccurrenceWithinStrip(q: string, w: string, i: int)
    requires |w| > 0 && !IsSpace(w[0]) && !IsSpace(w[|w| - 1])
    requires OccursAt(Upper(q), w, i)
    ensures LeadingSpaces(q) <= i && i + |w| <= LeadingSpaces(q) + |Strip(q)|
  {
    var u, last := Upper(q), i + |w| - 1;
    assert u[i] == w[0] && u[last] == w[|w| - 1];
    UpperCharSpace(q[i]);
    UpperCharSpace(q[last]);
    StripKeeps(q, i);
    StripKeeps(q, last);
  }

  lemma OccurrenceInNormalized(q: string, w: string, i: int)
    requires OccursAt(Upper(q), w, i)
    requires LeadingSpaces(q) <= i && i + |w| <= LeadingSpaces(q) + |Strip(q)|
    ensures OccursAt(Normalized(q), w, i - LeadingSpaces(q))
  {
    var b, r := LeadingSpaces(q), Strip(q);
    NormalizedIsSlice(q);
    OccurrenceInSlice(Upper(q), Normalized(q), w, b, b + |r|, i);
  }

  /**
   * An occurrence in the untrimmed text of a word that starts and ends with
   * a non-space character lies inside the trimmed text.
   */
  lemma RawOccurrenceIsTrimmed(q: string, w: string)
    requires |w| > 0 && !IsSpace(w[0]) && !IsSpace(w[|w| - 1])
    requires Contains(Upper(q), w)
    ensures Contains(Normalized(q), w)
  {
    var i := ContainsOccursAt(Upper(q), w);
    OccurrenceWithinStrip(q, w, i);
    OccurrenceInNormalized(q, w, i);
    OccursAtContains(Normalized(q), w, i - LeadingSpaces(q));
  }

  /**
   * A word that starts and ends with a non-space character occurs in the
   * trimmed text exactly when it occurs in the untrimmed one.
   */
  lemma ContainsTrimmed(q: string, w: string)
    requires |w| > 0 && !IsSpace(w[0]) && !IsSpace(w[|w| - 1])
    ensures Contains(Normalized(q), w) <==> Contains(Upper(q), w)
  {
    if Contains(Normalized(q), w) {
      TrimmedOccurrenceIsRaw(q, w);
    }
    if Contains(Upper(q), w) {
      RawOccurrenceIsTrimmed(q, w);
    }
  }

  /**
   * The deny-list check on the trimmed text is the check on the whole
   * upper-cased query: trimming hides no keyword and reveals none.
   */
  lemma DangerousOnRawText(q: string)
    ensures HasDangerousKeyword(Normalized(q)) <==>
              exists k :: 0 <= k < |DangerousKeywords| && Contains(Upper(q), DangerousKeywords[k])
  {
    forall k | 0 <= k < |DangerousKeywords|
      ensures Contains(Normalized(q), DangerousKeywords[k]) <==> Contains(Upper(q), DangerousKeywords[k])
    {
      var w := DangerousKeywords[k];
      assert 'A' <= w[0] <= 'Z' && 'A' <= w[|w| - 1] <= 'Z';
      ContainsTrimmed(q, w);
    }
  }

  /**
   * An allowed query, whatever its case and surrounding whitespace, spells
   * none of the deny-listed words anywhere in it.
   */
  lemma AllowedSpellsNoKeyword(q: string, k: int)
    requires Check(q) == Allowed && 0 <= k < |DangerousKeywords|
    ensures !Contains(Upper(q), DangerousKeywords[k])
  {
    DangerousOnRawText(q);
  }

  lemma UpdatedAtUpper()
    ensures Upper("SELECT updated_at FROM t") == "SELECT UPDATED_AT FROM T"
  {
    var q := "SELECT updated_at FROM t";
    assert forall k :: 0 <= k < |q| ==> Upper(q)[k] == UpperChar(q[k]);
  }

  /** A SELECT whose trimmed, upper-cased text holds a deny-listed word is refused as dangerous. */
  lemma DangerousAt(q: string, k: int, i: int)
    requires StartsWith(Normalized(q), "SELECT")
    requires 0 <= k < |DangerousKeywords| && OccursAt(Normalized(q), DangerousKeywords[k], i)
    ensures Check(q) == Dangerous
  {
    OccursAtContains(Normalized(q), DangerousKeywords[k], i);
  }

  /** A keyword inside an identifier is enough: `updated_at` spells UPDATE. */
  lemma ColumnNamedUpdatedIsRefused()
    ensures Check("SELECT updated_at FROM t") == Dangerous
  {
    var q := "SELECT updated_at FROM t";
    assert "" + q + "" == q;
    StripSurrounded("", q, "");
    UpdatedAtUpper();
    UpdatedAtSpellsUpdate();
    DangerousAt(q, 3, 7);
  }

  lemma UpdatedAtSpellsUpdate()
    ensures StartsWith("SELECT UPDATED_AT FROM T", "SELECT")
    ensures OccursAt("SELECT UPDATED_AT FROM T", DangerousKeywords[3], 7)
  {
    var t := "SELECT UPDATED_AT FROM T";
    assert t[..6] == "SELECT";
    assert t[7..13] == "UPDATE";
  }

  lemma SelectStarStripped()
    ensures Strip("  select * from t ") == "select * from t"
  {
    assert "  select * from t " == "  " + "select * from t" + " ";
    StripSurrounded("  ", "select * from t", " ");
  }

  lemma SelectStarUpper()
    ensures Upper("select * from t") == "SELECT * FROM T"
  {
    var s := "select * from t";
    assert forall k :: 0 <= k < |s| ==> Upper(s)[k] == UpperChar(s[k]);
  }

  /** Lower case and surrounding whitespace do not stop a plain SELECT. */
  lemma LowerCaseSelectIsAllowed()
    ensures Check("  select * from t ") == Allowed
  {
    SelectStarStripped();
    SelectStarUpper();
    var t := "SELECT * FROM T";
    assert Normalized("  select * from t ") == t;
    assert t[..6] == "SELECT";
    SelectStarLetters();
    NoKeywordIn(t);
  }

  lemma SelectStarLetters()
    ensures 'D' !in "SELECT * FROM T" && 'I' !in "SELECT * FROM T"
    ensures 'U' !in "SELECT * FROM T" && 'A' !in "SELECT * FROM T"
  {
  }

  /** Each deny-listed word has a letter missing from the text. */
  lemma NoKeywordIn(t: string)
    requires 'D' !in t && 'I' !in t && 'U' !in t && 'A' !in t
    ensures !HasDangerousKeyword(t)
  {
    forall k | 0 <= k < |DangerousKeywords|
      ensures !Contains(t, DangerousKeywords[k])
    {
      var w := DangerousKeywords[k];
      var j := if k == 5 then 3 else if k == 6 then 2 else 0;
      assert w[j] in "DIUA";
      AbsentChar(t, w, j);
    }
  }

  /** A statement that is not a SELECT is refused before the deny list is consulted. */
  lemma DeleteIsNotSelect()
    ensures Check("delete from users") == NotSelect
  {
    var q := "delete from users";
    assert q[0] == 'd';
    NormalizedFirst(q);
    NotSelectByFirst(q);
  }

  /** A query that starts with a non-space character keeps it, upper-cased, in front. */
  lemma NormalizedFirst(q: string)
    requires |q| > 0 && !IsSpace(q[0])
    ensures |Normalized(q)| > 0 && Normalized(q)[0] == UpperChar(q[0])
  {
    assert LeadingSpaces(q) == 0;
    StripKeeps(q, 0);
    assert Strip(q)[0] == q[0];
  }

  /** A trimmed text whose first letter is not `S` is refused as not a SELECT. */
  lemma NotSelectByFirst(q: string)
    requires |Normalized(q)| > 0 && Normalized(q)[0] != 'S'
    ensures Check(q) == NotSelect
  {
    var t := Normalized(q);
    assert |t| >= 6 ==> t[..6][0] == t[0];
  }
}
