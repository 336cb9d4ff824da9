/** Parsed chat messages (src/core/valueObjects/ParsedMessage.ts): immutable segments and
    the read-only queries on a list of them. */
module ParsedMessage {
  import opened Wrappers
  import Str
  import Dedupe

  datatype SegmentType = TEXT | BOLD | ITALIC | BULLET | NUMBERED_LIST | DATABASE_INDICATOR

  /** The `metadata` record: empty, `{ number }` or `{ businessName }`. */
  datatype Meta = NoMeta | ListNumber(number: int) | Business(name: string)

  datatype Segment = Segment(kind: SegmentType, content: string, meta: Meta)

  datatype Message = Message(segments: seq<Segment>)

  /** `getBusinessName()`: the metadata's business name, for a database indicator only. */
  function BusinessName(s: Segment): (r: Option<string>)
    ensures r.Some? <==> s.kind == DATABASE_INDICATOR && s.meta.Business?
    ensures r.Some? ==> r.value == s.meta.name
  {
    if s.kind == DATABASE_INDICATOR && s.meta.Business? then Some(s.meta.name) else None
  }

  /** `getListNumber()`: the metadata's number, for a numbered-list marker only. */
  function ListNumber(s: Segment): (r: Option<int>)
    ensures r.Some? <==> s.kind == NUMBERED_LIST && s.meta.ListNumber?
    ensures r.Some? ==> r.value == s.meta.number
  {
    if s.kind == NUMBERED_LIST && s.meta.ListNumber? then Some(s.meta.number) else None
  }

  /** `hasDatabaseReferences()`. */
  predicate HasDatabaseReferences(m: Message) {
    exists i :: 0 <= i < |m.segments| && m.segments[i].kind == DATABASE_INDICATOR
  }

  /** `getDatabaseBusinessNames()`: the names of the database indicators, in order, skipping
      indicators whose metadata has no name. */
  function NamesOf(segs: seq<Segment>): seq<string>
    decreases |segs|
  {
    if segs == [] then []
    else
      var rest := NamesOf(segs[1..]);
      match BusinessName(segs[0])
      case Some(n) => [n] + rest
      case None => rest
  }

  function DatabaseBusinessNames(m: Message): seq<string> {
    NamesOf(m.segments)
  }

  /** A name is listed exactly when some database indicator carries it; the list is never
      longer than the segment list. */
  lemma {:induction false} NamesOfProps(segs: seq<Segment>)
    ensures forall n :: n in NamesOf(segs) <==>
              exists i :: 0 <= i < |segs| && BusinessName(segs[i]) == Some(n)
    ensures |NamesOf(segs)| <= |segs|
    decreases |segs|
  {
    if segs != [] {
      NamesOfProps(segs[1..]);
      forall n ensures n in NamesOf(segs) <==> exists i :: 0 <= i < |segs| && BusinessName(segs[i]) == Some(n) {
        if n in NamesOf(segs) && BusinessName(segs[0]) != Some(n) {
          var i :| 0 <= i < |segs[1..]| && BusinessName(segs[1..][i]) == Some(n);
          assert BusinessName(segs[i + 1]) == Some(n);
        }
        if exists i :: 0 <= i < |segs| && BusinessName(segs[i]) == Some(n) {
          var i :| 0 <= i < |segs| && BusinessName(segs[i]) == Some(n);
          if i > 0 { assert BusinessName(segs[1..][i - 1]) == Some(n); }
        }
      }
    }
  }

  /** Order and multiplicity: the names of a concatenation are the names of its parts, in
      order, and one segment contributes its name once or nothing. Together these fix the
      list: one entry per carrying segment, in segment order. */
  lemma NamesOfAppend(a: seq<Segment>, b: seq<Segment>)
    ensures NamesOf(a + b) == NamesOf(a) + NamesOf(b)
    ensures forall s :: NamesOf([s]) == (if BusinessName(s).Some? then [BusinessName(s).value] else [])
  {
    NamesOfJoin(a, b);
    forall s ensures NamesOf([s]) == (if BusinessName(s).Some? then [BusinessName(s).value] else []) {
      NamesOfOne(s);
    }
  }

  lemma {:induction false} NamesOfJoin(a: seq<Segment>, b: seq<Segment>)
    ensures NamesOf(a + b) == NamesOf(a) + NamesOf(b)
    decreases |a|
  {
    if a == [] {
      assert a + b == b;
    } else {
      var ab := a + b;
      assert ab[1..] == a[1..] + b;
      assert ab[0] == a[0];
      NamesOfJoin(a[1..], b);
      assert NamesOf(ab) == (match BusinessName(a[0]) case Some(n) => [n] case None => []) + NamesOf(ab[1..]);
    }
  }

  lemma NamesOfOne(s: Segment)
    ensures NamesOf([s]) == (if BusinessName(s).Some? then [BusinessName(s).value] else [])
  {
    assert [s][1..] == [];
  }

  /** `getSegmentsByType(t)`. */
  function SegmentsByType(segs: seq<Segment>, t: SegmentType): seq<Segment>
    decreases |segs|
  {
    if segs == [] then []
    else (if segs[0].kind == t then [segs[0]] else []) + SegmentsByType(segs[1..], t)
  }

  /** The filtered list keeps exactly the segments of type t, in their original order. */
  lemma {:induction false} SegmentsByTypeProps(segs: seq<Segment>, t: SegmentType)
    ensures forall s :: s in SegmentsByType(segs, t) <==> s in segs && s.kind == t
    ensures Dedupe.Subseq(SegmentsByType(segs, t), segs)
    decreases |segs|
  {
    if segs != [] {
      SegmentsByTypeProps(segs[1..], t);
      var r := SegmentsByType(segs, t);
      var rest := SegmentsByType(segs[1..], t);
      assert segs == [segs[0]] + segs[1..];
      if segs[0].kind == t {
        assert r == [segs[0]] + rest;
        assert r[1..] == rest;
      } else {
        assert r == rest;
      }
    }
  }

  /** Filtering distributes over concatenation. */
  lemma {:induction false} SegmentsByTypeAppend(a: seq<Segment>, b: seq<Segment>, t: SegmentType)
    ensures SegmentsByType(a + b, t) == SegmentsByType(a, t) + SegmentsByType(b, t)
    decreases |a|
  {
    if a == [] {
      assert a + b == b;
    } else {
      assert (a + b)[1..] == a[1..] + b;
      assert (a + b)[0] == a[0];
      SegmentsByTypeAppend(a[1..], b, t);
      var x, y := SegmentsByType(a[1..], t), SegmentsByType(b, t);
      if a[0].kind == t {
        assert SegmentsByType(a + b, t) == [a[0]] + (x + y);
        assert SegmentsByType(a, t) == [a[0]] + x;
        assert [a[0]] + (x + y) == ([a[0]] + x) + y;
      } else {
        assert SegmentsByType(a + b, t) == x + y;
        assert SegmentsByType(a, t) == x;
      }
    }
  }

  /** Nothing is kept when no segment has the type. */
  lemma {:induction false} SegmentsByTypeNone(segs: seq<Segment>, t: SegmentType)
    requires forall i :: 0 <= i < |segs| ==> segs[i].kind != t
    ensures SegmentsByType(segs, t) == []
    decreases |segs|
  {
    if segs != [] {
      SegmentsByTypeNone(segs[1..], t);
    }
  }

  /** A message has database references exactly when filtering it for database
      indicators keeps something, and every listed business name comes from one. */
  lemma HasDatabaseReferencesIff(m: Message)
    ensures HasDatabaseReferences(m) <==> SegmentsByType(m.segments, DATABASE_INDICATOR) != []
    ensures DatabaseBusinessNames(m) != [] ==> HasDatabaseReferences(m)
  {
    SegmentsByTypeProps(m.segments, DATABASE_INDICATOR);
    NamesOfProps(m.segments);
    var d := SegmentsByType(m.segments, DATABASE_INDICATOR);
    if HasDatabaseReferences(m) {
      var i :| 0 <= i < |m.segments| && m.segments[i].kind == DATABASE_INDICATOR;
      assert m.segments[i] in d;
    }
    if d != [] {
      assert d[0] in m.segments;
    }
    if DatabaseBusinessNames(m) != [] {
      var n := DatabaseBusinessNames(m)[0];
      assert n in NamesOf(m.segments);
    }
  }

  const BULLET_PREFIX := "\U{00E2}\U{20AC}\U{00A2} "
  const DATABASE_NOTE := "(from our database)"

  /** The text one segment contributes to `toPlainText`. An absent list number renders as
      "undefined", as a template literal does. */
  function PlainPiece(s: Segment): string {
    match s.kind
    case DATABASE_INDICATOR => DATABASE_NOTE
    case BULLET => BULLET_PREFIX + s.content
    case NUMBERED_LIST =>
      (match ListNumber(s) case Some(n) => Str.IntToString(n) case None => "undefined") + ". " + s.content
    case _ => s.content
  }

  function PlainText(segs: seq<Segment>): string
    decreases |segs|
  {
    if segs == [] then "" else PlainPiece(segs[0]) + PlainText(segs[1..])
  }

  function ToPlainText(m: Message): string {
    PlainText(m.segments)
  }

  /** Plain text is computed piece by piece: the text of a concatenation is the
      concatenation of the texts. */
  lemma {:induction false} PlainTextAppend(a: seq<Segment>, b: seq<Segment>)
    ensures PlainText(a + b) == PlainText(a) + PlainText(b)
    decreases |a|
  {
    if a != [] {
      assert (a + b)[1..] == a[1..] + b;
      assert (a + b)[0] == a[0];
      PlainTextAppend(a[1..], b);
      calc {
        PlainText(a + b);
        PlainPiece(a[0]) + PlainText(a[1..] + b);
        PlainPiece(a[0]) + (PlainText(a[1..]) + PlainText(b));
        (PlainPiece(a[0]) + PlainText(a[1..])) + PlainText(b);
      }
    } else {
      assert a + b == b;
    }
  }

  /** Plain text of a message without database indicators or list markers is the
      concatenation of the segment contents. */
  lemma {:induction false} PlainTextOfText(segs: seq<Segment>)
    requires forall i :: 0 <= i < |segs| ==> segs[i].kind in {TEXT, BOLD, ITALIC}
    ensures PlainText(segs) == Str.Join(Contents(segs), "")
    decreases |segs|
  {
    if segs != [] {
      PlainTextOfText(segs[1..]);
      if |segs| > 1 {
        assert Contents(segs) == [segs[0].content] + Contents(segs[1..]);
        Str.JoinCons(segs[0].content, Contents(segs[1..]), "");
      }
    }
  }

  function Contents(segs: seq<Segment>): (r: seq<string>)
    ensures |r| == |segs| && forall i :: 0 <= i < |segs| ==> r[i] == segs[i].content
  {
    seq(|segs|, i requires 0 <= i < |segs| => segs[i].content)
  }

  /** A segment that makes a message non-empty. */
  predicate Substantial(s: Segment) {
    Str.Trim(s.content) != [] || s.kind == NUMBERED_LIST || s.kind == BULLET || s.kind == DATABASE_INDICATOR
  }

  /** `isEmpty()`. */
  predicate IsEmpty(m: Message) {
    |m.segments| == 0 || !exists i :: 0 <= i < |m.segments| && Substantial(m.segments[i])
  }

  predicate Blank(s: Segment) {
    (s.kind == TEXT || s.kind == BOLD || s.kind == ITALIC) && Str.IsBlank(s.content)
  }

  lemma SubstantialIff(s: Segment)
    ensures Substantial(s) <==> !Blank(s)
  {
    Str.TrimEmptyIffBlank(s.content);
  }

  /** A message is empty exactly when every segment is a text-like segment whose content
      is white space. */
  lemma IsEmptyIff(m: Message)
    ensures IsEmpty(m) <==> forall i :: 0 <= i < |m.segments| ==> Blank(m.segments[i])
  {
    forall i | 0 <= i < |m.segments| ensures Substantial(m.segments[i]) <==> !Blank(m.segments[i]) {
      SubstantialIff(m.segments[i]);
    }
  }
}
