/**
 * Fields joined by four dashes and split again (splitFields in pkg/mailer/importer.go, the joining
 * in pkg/mailer/exporter.go). The separator overlaps itself, so splitting undoes joining only when
 * no field but the last ends in a dash.
 */
module Fields {
  import opened Text

  const SEPARATOR := "----"

  predicate SepAt(s: string, i: int) {
    0 <= i && i + 4 <= |s| && s[i] == s[i + 1] == s[i + 2] == s[i + 3] == '-'
  }

  ghost predicate HasSep(s: string) {
    exists i :: SepAt(s, i)
  }

  /** The leftmost separator, or -1. */
  function Index(s: string): (r: int)
    ensures r >= 0 ==> SepAt(s, r)
    ensures forall j :: (r < 0 || j < r) ==> !SepAt(s, j)
  {
    if |s| < 4 then -1
    else if SepAt(s, 0) then 0
    else
      var r := Index(s[1..]);
      assert forall j :: j > 0 ==> (SepAt(s, j) <==> SepAt(s[1..], j - 1));
      if r < 0 then -1 else r + 1
  }

  function Split(s: string): (parts: seq<string>)
    ensures parts != []
    decreases |s|
  {
    var i := Index(s);
    if i < 0 then [s] else [s[..i]] + Split(s[i + 4..])
  }

  function Join(fields: seq<string>): string {
    if fields == [] then ""
    else if |fields| == 1 then fields[0]
    else fields[0] + SEPARATOR + Join(fields[1..])
  }

  function TrimAll(parts: seq<string>): (r: seq<string>)
    ensures |r| == |parts|
  {
    seq(|parts|, i requires 0 <= i < |parts| => Trim(parts[i]))
  }

  function DropEmptyTail(parts: seq<string>): (r: seq<string>)
    ensures r <= parts
    ensures r != [] ==> r[|r| - 1] != ""
    ensures forall i :: |r| <= i < |parts| ==> parts[i] == ""
  {
    if parts != [] && parts[|parts| - 1] == "" then DropEmptyTail(parts[..|parts| - 1]) else parts
  }

  function Parts(line: string): seq<string> {
    if Trim(line) == "" then [] else DropEmptyTail(TrimAll(Split(Trim(line))))
  }

  /** The splitting as the importer does it: trim, cut, trim each piece, shrink the tail. */
  method SplitFields(line: string) returns (out: seq<string>)
    ensures out == Parts(line)
  {
    var text := Trim(line);
    if text == "" {
      return [];
    }
    var parts := Split(text);
    out := [];
    for i := 0 to |parts|
      invariant out == TrimAll(parts)[..i]
    {
      assert TrimAll(parts)[..i + 1] == TrimAll(parts)[..i] + [Trim(parts[i])];
      out := out + [Trim(parts[i])];
    }
    assert out == TrimAll(parts);
    while |out| > 0 && out[|out| - 1] == ""
      invariant DropEmptyTail(out) == DropEmptyTail(TrimAll(parts))
      decreases |out|
    {
      out := out[..|out| - 1];
    }
  }

  // ---------- splitting a joined line ----------

  predicate EndsInDash(s: string) {
    s != "" && s[|s| - 1] == '-'
  }

  /** What a line of fields needs to come back unchanged. */
  ghost predicate Clean(fields: seq<string>) {
    && fields != []
    && fields[|fields| - 1] != ""
    && (forall i :: 0 <= i < |fields| ==> Trimmed(fields[i]) && !HasSep(fields[i]))
    && (forall i :: 0 <= i < |fields| - 1 ==> !EndsInDash(fields[i]))
  }

  /** The first cut of `f + separator + rest` is right after `f`, or inside it when `f` ends in a dash. */
  lemma FirstCut(f: string, rest: string)
    requires !HasSep(f)
    ensures var i := Index(f + SEPARATOR + rest); if EndsInDash(f) then 0 <= i < |f| else i == |f|
  {
    var s := f + SEPARATOR + rest;
    assert SepAt(s, |f|);
    if EndsInDash(f) {
      assert SepAt(s, |f| - 1);
    } else {
      forall j | 0 <= j < |f| ensures !SepAt(s, j) {
        assert j + 4 <= |f| ==> !SepAt(f, j);
        assert s[|f| - 1] == f[|f| - 1];
      }
    }
  }

  /** Piece k lost at least its final dash to the separator after it. */
  predicate CutShort(fields: seq<string>, pieces: seq<string>, k: nat) {
    k < |fields| && k < |pieces| && EndsInDash(fields[k]) && |pieces[k]| < |fields[k]|
  }

  /** Split undoes join exactly when no field but the last ends in a dash; otherwise some piece is too short. */
  lemma {:induction false} SplitOfJoin(fields: seq<string>)
    requires fields != [] && forall i :: 0 <= i < |fields| ==> !HasSep(fields[i])
    ensures (forall i :: 0 <= i < |fields| - 1 ==> !EndsInDash(fields[i])) ==> Split(Join(fields)) == fields
    ensures (exists i :: 0 <= i < |fields| - 1 && EndsInDash(fields[i])) ==>
              exists k :: 0 <= k < |fields| - 1 && CutShort(fields, Split(Join(fields)), k)
    decreases |fields|
  {
    var f, s := fields[0], Join(fields);
    if |fields| == 1 {
      assert Index(s) < 0;
    } else {
      var tail := fields[1..];
      FirstCut(f, Join(tail));
      if EndsInDash(f) {
        assert CutShort(fields, Split(s), 0);
      } else {
        assert s[..|f|] == f && s[|f| + 4..] == Join(tail);
        assert Split(s) == [f] + Split(Join(tail));
        SplitOfJoin(tail);
        if j :| 0 <= j < |fields| - 1 && EndsInDash(fields[j]) {
          assert tail[j - 1] == fields[j];
          var k :| 0 <= k < |tail| - 1 && CutShort(tail, Split(Join(tail)), k);
          assert CutShort(fields, Split(s), k + 1);
        } else {
          assert forall i :: 0 <= i < |tail| - 1 ==> tail[i] == fields[i + 1];
        }
      }
    }
  }

  // ---------- what any split line looks like ----------

  lemma {:induction false} PiecesHaveNoSep(s: string)
    ensures forall i :: 0 <= i < |Split(s)| ==> !HasSep(Split(s)[i])
    decreases |s|
  {
    var i := Index(s);
    if i >= 0 {
      var head := s[..i];
      assert forall j :: SepAt(head, j) ==> SepAt(s, j);
      PiecesHaveNoSep(s[i + 4..]);
    }
  }

  lemma TrimKeepsNoSep(s: string)
    requires !HasSep(s)
    ensures !HasSep(Trim(s))
  {
    var i, j := TrimCut(s);
    assert forall k :: SepAt(Trim(s), k) ==> SepAt(s, i + k);
  }

  /** Parsed fields are always trimmed, free of separators, and the last one is not empty. */
  lemma PartsAreTidy(line: string)
    ensures forall i :: 0 <= i < |Parts(line)| ==> Trimmed(Parts(line)[i]) && !HasSep(Parts(line)[i])
    ensures Parts(line) != [] ==> Parts(line)[|Parts(line)| - 1] != ""
  {
    var pieces := Split(Trim(line));
    PiecesHaveNoSep(Trim(line));
    forall i | 0 <= i < |Parts(line)| ensures Trimmed(Parts(line)[i]) && !HasSep(Parts(line)[i]) {
      assert Parts(line)[i] == Trim(pieces[i]);
      TrimFixed(pieces[i]);
      TrimKeepsNoSep(pieces[i]);
    }
  }

  lemma {:induction false} JoinTrimmed(fields: seq<string>)
    requires fields != [] && fields[|fields| - 1] != ""
    requires forall i :: 0 <= i < |fields| ==> Trimmed(fields[i])
    ensures Join(fields) != "" && Trimmed(Join(fields))
    decreases |fields|
  {
    if |fields| > 1 {
      assert fields[1..][|fields[1..]| - 1] == fields[|fields| - 1];
      JoinTrimmed(fields[1..]);
      var s := Join(fields);
      assert s[|s| - 1] == Join(fields[1..])[|Join(fields[1..])| - 1];
      assert s[0] == if fields[0] == "" then '-' else fields[0][0];
    }
  }

  /** Some parsed field is missing or shorter than it was. */
  lemma ShortPiece(fields: seq<string>) returns (k: nat)
    requires fields != [] && forall i :: 0 <= i < |fields| ==> !HasSep(fields[i])
    requires exists i :: 0 <= i < |fields| - 1 && EndsInDash(fields[i])
    requires Trim(Join(fields)) == Join(fields) != ""
    ensures k < |fields| - 1 && EndsInDash(fields[k])
    ensures k < |Parts(Join(fields))| ==> |Parts(Join(fields))[k]| < |fields[k]|
  {
    var s := Join(fields);
    SplitOfJoin(fields);
    k :| 0 <= k < |fields| - 1 && CutShort(fields, Split(s), k);
    TrimFixed(Split(s)[k]);
    assert k < |Parts(s)| ==> Parts(s)[k] == Trim(Split(s)[k]);
  }

  lemma CleanReadsBack(fields: seq<string>)
    requires Clean(fields)
    ensures Parts(Join(fields)) == fields
  {
    JoinTrimmed(fields);
    TrimFixed(Join(fields));
    SplitOfJoin(fields);
    forall i | 0 <= i < |fields| ensures TrimAll(fields)[i] == fields[i] {
      TrimFixed(fields[i]);
    }
    assert TrimAll(fields) == fields;
  }

  /** A line reads back as the fields it was joined from if and only if the fields are clean. */
  lemma SplitInvertsJoin(fields: seq<string>)
    requires fields != []
    ensures Parts(Join(fields)) == fields <==> Clean(fields)
  {
    if Clean(fields) {
      CleanReadsBack(fields);
    } else if Parts(Join(fields)) == fields {
      PartsAreTidy(Join(fields));
      JoinTrimmed(fields);
      TrimFixed(Join(fields));
      var k := ShortPiece(fields);
    }
  }
}
