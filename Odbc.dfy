/**
 * ODBC connection strings as the modelled builders write them: a run of
 * `key=value;` segments. `Parse` reads a string back into its segments; it
 * is the partner against which the builders' layouts are stated.
 */
module Odbc {
  import opened Wrappers

  datatype Segment = Segment(key: string, value: string)

  /** The two sign-in modes both connection-string builders name. */
  const Interactive := "ActiveDirectoryInteractive"
  const SqlPassword := "SqlPassword"

  /** The text of a run of segments, each written `key=value;`. */
  function Render(segs: seq<Segment>): string {
    if |segs| == 0 then "" else segs[0].key + "=" + segs[0].value + ";" + Render(segs[1..])
  }

  /** Rendering a run of segments is rendering each part in turn. */
  lemma {:induction false} RenderAppend(a: seq<Segment>, b: seq<Segment>)
    ensures Render(a + b) == Render(a) + Render(b)
    decreases |a|
  {
    if |a| > 0 {
      assert (a + b)[0] == a[0] && (a + b)[1..] == a[1..] + b;
      RenderAppend(a[1..], b);
      var head := a[0].key + "=" + a[0].value + ";";
      assert Render(a + b) == head + Render(a[1..] + b);
      assert Render(a) == head + Render(a[1..]);
    } else {
      assert a + b == b;
    }
  }

  /** Index of the first `c` in `s`, if any. */
  function IndexOf(s: string, c: char): (r: Option<nat>)
    ensures r.None? ==> c !in s
    ensures r.Some? ==> r.value < |s| && s[r.value] == c && c !in s[..r.value]
  {
    if |s| == 0 then None
    else if s[0] == c then Some(0)
    else match IndexOf(s[1..], c)
      case None => None
      case Some(i) => assert s[..i + 1] == [s[0]] + s[1..][..i]; Some(i + 1)
  }

  lemma IndexOfAt(a: string, c: char, b: string)
    requires c !in a
    ensures IndexOf(a + [c] + b, c) == Some(|a|)
  {
    var s := a + [c] + b;
    assert s[|a|] == c;
    var i := IndexOf(s, c).value;
    assert forall j :: 0 <= j < |a| ==> s[j] == a[j];
    assert forall j :: |a| < j <= |s| ==> s[..j][|a|] == c;
  }

  /**
   * The first segment of a text and what follows it: the text up to the
   * first `;`, split at its first `=`; `None` when there is no `;` or the
   * segment has no `=`.
   */
  function Cut(s: string): (r: Option<(Segment, string)>)
    ensures r.Some? ==> |r.value.1| < |s|
    ensures r.Some? ==> s == r.value.0.key + "=" + r.value.0.value + ";" + r.value.1
  {
    match IndexOf(s, ';')
    case None => None
    case Some(semi) =>
      var body := s[..semi];
      match IndexOf(body, '=')
      case None => None
      case Some(eq) =>
        Rejoin(body, eq);
        Rejoin(s, semi);
        Some((Segment(body[..eq], body[eq + 1..]), s[semi + 1..]))
  }

  /** Splits a string into its segments; `None` when some text does not cut. */
  function Parse(s: string): Option<seq<Segment>>
    decreases |s|
  {
    if |s| == 0 then Some([])
    else match Cut(s)
      case None => None
      case Some(first) =>
        match Parse(first.1)
        case None => None
        case Some(rest) => Some([first.0] + rest)
  }

  lemma Rejoin(s: string, i: int)
    requires 0 <= i < |s|
    ensures s[..i] + [s[i]] + s[i + 1..] == s
  {
  }

  /** A segment whose text cannot be misread: no `;` anywhere, no `=` in the key. */
  predicate Clean(seg: Segment) {
    ';' !in seg.key && '=' !in seg.key && ';' !in seg.value
  }

  predicate AllClean(segs: seq<Segment>) {
    forall k :: 0 <= k < |segs| ==> Clean(segs[k])
  }

  /**
   * The short keys the builders write hold neither `;` nor `=`. This lemma
   * and the next only keep the layout proofs cheap: they settle these
   * literal facts once instead of in every caller.
   */
  lemma ShortKeysClean()
    ensures ';' !in "DRIVER" && '=' !in "DRIVER" && ';' !in "SERVER" && '=' !in "SERVER"
    ensures ';' !in "DATABASE" && '=' !in "DATABASE" && ';' !in "Encrypt" && '=' !in "Encrypt"
    ensures ';' !in "UID" && '=' !in "UID" && ';' !in "PWD" && '=' !in "PWD"
  {
  }

  /** The long keys the builders write hold neither `;` nor `=`. */
  lemma LongKeysClean()
    ensures ';' !in "TrustServerCertificate" && '=' !in "TrustServerCertificate"
    ensures ';' !in "Connection Timeout" && '=' !in "Connection Timeout"
    ensures ';' !in "Authentication" && '=' !in "Authentication"
  {
    NoDelimiterIn("TrustServerCertificate");
    NoDelimiterIn("Connection Timeout");
    NoDelimiterIn("Authentication");
  }

  /** A key made of letters and spaces holds neither `;` nor `=`. */
  lemma NoDelimiterIn(key: string)
    requires forall k :: 0 <= k < |key| ==> key[k] == ' ' || 'A' <= key[k] <= 'Z' || 'a' <= key[k] <= 'z'
    ensures ';' !in key && '=' !in key
  {
  }

  /** Some segment carries `key`. */
  predicate HasKey(segs: seq<Segment>, key: string) {
    exists k :: 0 <= k < |segs| && segs[k].key == key
  }

  lemma RenderOne(seg: Segment)
    ensures Render([seg]) == seg.key + "=" + seg.value + ";"
  {
    assert [seg][1..] == [];
  }

  /** Rendering a run is rendering its first segment, then the rest. */
  lemma RenderCons(segs: seq<Segment>)
    requires |segs| > 0
    ensures Render(segs) == segs[0].key + "=" + segs[0].value + ";" + Render(segs[1..])
  {
  }

  lemma NoDelimiter(k: string, v: string, c: char)
    requires c != '=' && c !in k && c !in v
    ensures c !in k + "=" + v
  {
    assert forall i :: 0 <= i < |k + "=" + v| ==>
      (k + "=" + v)[i] == (if i < |k| then k[i] else if i == |k| then '=' else v[i - |k| - 1]);
  }

  /** A clean segment in front of a text is cut off it whole. */
  lemma CutClean(seg: Segment, tail: string)
    requires Clean(seg)
    ensures Cut(seg.key + "=" + seg.value + ";" + tail) == Some((seg, tail))
  {
    var k, v := seg.key, seg.value;
    var s := seg.key + "=" + seg.value + ";" + tail;
    assert s == (k + "=" + v) + [';'] + tail;
    NoDelimiter(k, v, ';');
    IndexOfAt(k + "=" + v, ';', tail);
    var body := s[..|k| + 1 + |v|];
    assert body == k + ['='] + v;
    IndexOfAt(k, '=', v);
    CutAt(s, |k| + 1 + |v|, |k|);
    assert body[..|k|] == k && body[|k| + 1..] == v;
    assert s[|k| + 1 + |v| + 1..] == tail;
  }

  /** `Cut` once the first `;` and the first `=` before it are known. */
  lemma CutAt(s: string, semi: nat, eq: nat)
    requires IndexOf(s, ';') == Some(semi)
    requires IndexOf(s[..semi], '=') == Some(eq)
    ensures Cut(s) == Some((Segment(s[..semi][..eq], s[..semi][eq + 1..]), s[semi + 1..]))
  {
  }

  /** Clean segments read back exactly as they were written. */
  lemma {:induction false} ParseRender(segs: seq<Segment>)
    requires AllClean(segs)
    ensures Parse(Render(segs)) == Some(segs)
    decreases |segs|
  {
    if |segs| > 0 {
      RenderCons(segs);
      CutClean(segs[0], Render(segs[1..]));
      ParseRender(segs[1..]);
      assert [segs[0]] + segs[1..] == segs;
    }
  }

  /** Whatever parses is rendered back to the very same text. */
  lemma {:induction false} RenderParse(s: string)
    requires Parse(s).Some?
    ensures Render(Parse(s).value) == s
    decreases |s|
  {
    if |s| > 0 {
      var first := Cut(s).value;
      RenderParse(first.1);
      var segs := Parse(s).value;
      RenderCons(segs);
      assert segs[0] == first.0 && segs[1..] == Parse(first.1).value;
    }
  }
}
