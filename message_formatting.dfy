/** The chat-message scanner of src/core/services/MessageFormattingService.ts. Each of the
    three scanning loops is a method proved equal to a recursive function on the cursor
    position; the properties of the parse are lemmas about those functions. */
module MessageFormatting {
  import opened Wrappers
  import Str
  import opened ParsedMessage
  import Seqs

  const NO_RESPONSE := "No response available"
  const BUSINESS_OPEN := "<business"
  const BUSINESS_CLOSE := "</business>"
  const DB_FLAG := "db=\"true\""
  const ITEM_OPEN := "<item>"
  const ITEM_CLOSE := "</item>"
  const TYPE_NUMBERED := "type=\"numbered\""
  const TYPE_BULLET := "type=\"bullet\""

  function Text(s: string): Segment { Segment(TEXT, s, NoMeta) }

  // ------------------------------------------------------------------ parseInlineContent

  /** The segments `parseInlineContent` pushes from cursor `pos` on. */
  function InlineFrom(c: string, pos: nat): seq<Segment>
    requires pos <= |c|
    decreases |c| - pos
  {
    if pos >= |c| then []
    else match Str.IndexOf(c, BUSINESS_OPEN, pos)
      case None => TextIfContent(c[pos..])
      case Some(bs) =>
        var (seg, next) := Round(c, bs);
        TextIfContent(c[pos..bs]) + [seg] + InlineFrom(c, next)
  }

  /** What one round pushes for the `<business` at bs, and where the next round starts: the
      tag's segment and the index past `</business>`, or, for a tag that is never closed,
      the literal `<business` and the index past it. */
  function Round(c: string, bs: nat): (r: (Segment, nat))
    requires Str.Occurs(c, BUSINESS_OPEN, bs)
    ensures bs < r.1 <= |c|
  {
    match BusinessTag(c, bs)
    case Some(tag) => tag
    case None => (Text(BUSINESS_OPEN), bs + 9)
  }

  /** A text segment for s, unless s is empty or white space (then nothing). */
  function TextIfContent(s: string): (r: seq<Segment>)
    ensures r == [] <==> Str.Trim(s) == []
  {
    if Str.Trim(s) != [] then [Text(s)] else []
  }

  /** The business tag opening at bs: when both its `>` and a later `</business>` exist, the
      segment it stands for and the index just past `</business>`. The name is the trimmed
      text between the two; the tag is a database indicator when `db="true"` occurs in it. */
  function BusinessTag(c: string, bs: nat): (r: Option<(Segment, nat)>)
    ensures r.Some? ==> bs < r.value.1 <= |c|
  {
    var tagEnd := Str.IndexOf(c, ">", bs);
    var bEnd := Str.IndexOf(c, BUSINESS_CLOSE, bs);
    if tagEnd.Some? && bEnd.Some? then Some((TagSegment(c, bs, tagEnd.value, bEnd.value), bEnd.value + 11))
    else None
  }

  lemma InlineDone(c: string, pos: nat)
    requires pos < |c| && Str.IndexOf(c, BUSINESS_OPEN, pos).None?
    ensures InlineFrom(c, pos) == TextIfContent(c[pos..])
  {
  }

  /** One round of the loop: the text before the tag, the tag's segment, and the rest. */
  lemma InlineStep(c: string, pos: nat, bs: nat, seg: Segment, next: nat)
    requires pos < |c| && Str.IndexOf(c, BUSINESS_OPEN, pos) == Some(bs)
    requires BusinessTag(c, bs) == Some((seg, next))
          || (BusinessTag(c, bs).None? && seg == Text(BUSINESS_OPEN) && next == bs + 9)
    ensures pos < next <= |c|
    ensures InlineFrom(c, pos) == TextIfContent(c[pos..bs]) + [seg] + InlineFrom(c, next)
  {
    InlineUnfoldAt(c, pos, bs);
    assert pos <= bs;
  }

  lemma InlineUnfoldAt(c: string, pos: nat, bs: nat)
    requires pos < |c| && Str.IndexOf(c, BUSINESS_OPEN, pos) == Some(bs)
    ensures Str.Occurs(c, BUSINESS_OPEN, bs)
    ensures InlineFrom(c, pos) == TextIfContent(c[pos..bs]) + [Round(c, bs).0] + InlineFrom(c, Round(c, bs).1)
  {
  }

  lemma BusinessTagFound(c: string, bs: nat, te: nat, be: nat)
    requires Str.IndexOf(c, ">", bs) == Some(te) && Str.IndexOf(c, BUSINESS_CLOSE, bs) == Some(be)
    ensures BusinessTag(c, bs) == Some((TagSegment(c, bs, te, be), be + 11))
  {
  }

  /** The segment of a complete business tag: `>` at te, `</business>` at be. */
  function TagSegment(c: string, bs: nat, te: nat, be: nat): Segment
    requires bs <= te < |c|
  {
    var name := Str.Trim(Str.Substring(c, te + 1, be));
    if Str.Contains(c[bs..te + 1], DB_FLAG) then Segment(DATABASE_INDICATOR, "", Business(name))
    else Text(name)
  }

  /** `parseInlineContent`. */
  method ParseInlineContent(c: string) returns (segments: seq<Segment>)
    ensures segments == InlineFrom(c, 0)
  {
    segments := [];
    var position := 0;
    while position < |c|
      invariant position <= |c|
      invariant InlineFrom(c, 0) == segments + InlineFrom(c, position)
      decreases |c| - position
    {
      var businessStart := Str.IndexOf(c, BUSINESS_OPEN, position);
      if businessStart.None? {
        var remaining := c[position..];
        InlineDone(c, position);
        if Str.Trim(remaining) != [] {
          segments := segments + [Text(remaining)];
        }
        return;
      }
      var bs := businessStart.value;
      var before: seq<Segment> := [];
      if bs > position {
        var beforeText := c[position..bs];
        if Str.Trim(beforeText) != [] {
          before := [Text(beforeText)];
        }
      }
      assert before == TextIfContent(c[position..bs]);
      var tag := ReadBusinessTag(c, bs);
      var seg: Segment;
      var next: nat;
      if tag.Some? {
        seg, next := tag.value.0, tag.value.1;
      } else {
        // A `<business` without a closing tag is kept as literal text.
        seg, next := Text(BUSINESS_OPEN), bs + 9;
      }
      InlineStep(c, position, bs, seg, next);
      Seqs.AppendAssoc(segments, before + [seg], InlineFrom(c, next));
      segments := segments + (before + [seg]);
      position := next;
    }
  }

  /** The body of the business-tag branch of `parseInlineContent`: locate `>` and
      `</business>`, read the name and the `db` flag. */
  method ReadBusinessTag(c: string, bs: nat) returns (r: Option<(Segment, nat)>)
    ensures r == BusinessTag(c, bs)
  {
    var tagEnd := Str.IndexOf(c, ">", bs);
    var businessEnd := Str.IndexOf(c, BUSINESS_CLOSE, bs);
    if tagEnd.Some? && businessEnd.Some? {
      var tagContent := c[bs..tagEnd.value + 1];
      var businessName := Str.Substring(c, tagEnd.value + 1, businessEnd.value);
      var seg: Segment;
      if Str.Contains(tagContent, DB_FLAG) {
        seg := Segment(DATABASE_INDICATOR, "", Business(Str.Trim(businessName)));
      } else {
        seg := Text(Str.Trim(businessName));
      }
      BusinessTagFound(c, bs, tagEnd.value, businessEnd.value);
      r := Some((seg, businessEnd.value + 11));
    } else {
      r := None;
    }
  }

  // ------------------------------------------------------------------ parseListContent

  /** The contents of the `<item>...</item>` pairs `parseListContent` visits from cursor
      `pos` on; the scan stops at the first `<item>` without a later `</item>`. */
  function ItemsFrom(c: string, pos: nat): seq<string>
    requires pos <= |c|
    decreases |c| - pos
  {
    if pos >= |c| then []
    else match ItemAt(c, pos)
      case None => []
      case Some((item, next)) => [item] + ItemsFrom(c, next)
  }

  /** The next `<item>` from `pos` on with a later `</item>`: its content and the index past
      `</item>`. */
  function ItemAt(c: string, pos: nat): (r: Option<(string, nat)>)
    ensures r.Some? ==> pos < r.value.1 <= |c|
  {
    match Str.IndexOf(c, ITEM_OPEN, pos)
    case None => None
    case Some(st) =>
      match Str.IndexOf(c, ITEM_CLOSE, st)
      case None => None
      case Some(ie) => Some((Str.Substring(c, st + 6, ie), ie + 7))
  }

  /** The marker of item number `number`. */
  function Marker(number: int, numbered: bool): Segment {
    if numbered then Segment(NUMBERED_LIST, "", ListNumber(number)) else Segment(BULLET, "", NoMeta)
  }

  /** The segments of a list whose items parse to `parsed`, the first one numbered
      `number`: per item its marker, its inline segments and a line break. */
  function Render(parsed: seq<seq<Segment>>, number: int, numbered: bool): seq<Segment>
    decreases |parsed|
  {
    if parsed == [] then []
    else [Marker(number, numbered)] + parsed[0] + [Text("\n")]
         + Render(parsed[1..], number + 1, numbered)
  }

  /** The inline segments of each item. */
  function InlineEach(items: seq<string>): (r: seq<seq<Segment>>)
    ensures |r| == |items|
    decreases |items|
  {
    if items == [] then [] else [InlineFrom(items[0], 0)] + InlineEach(items[1..])
  }

  function List(c: string, listType: string): seq<Segment> {
    Render(InlineEach(ItemsFrom(c, 0)), 1, listType == "numbered")
  }

  lemma ItemsStop(c: string, pos: nat)
    requires pos < |c| && ItemAt(c, pos).None?
    ensures ItemsFrom(c, pos) == []
  {
  }

  /** The search for the next item of the `parseListContent` loop: the `<item>` from `pos`
      on, then the `</item>` after it, and the text between them. */
  method NextItem(c: string, pos: nat) returns (found: Option<(string, nat)>)
    ensures found == ItemAt(c, pos)
  {
    var itemStart := Str.IndexOf(c, ITEM_OPEN, pos);
    if itemStart.None? {
      return None;
    }
    var itemEnd := Str.IndexOf(c, ITEM_CLOSE, itemStart.value);
    if itemEnd.None? {
      return None;
    }
    found := Some((Str.Substring(c, itemStart.value + 6, itemEnd.value), itemEnd.value + 7));
  }

  /** The items of `c` are those in `done` followed by those the scan finds from `pos` on. */
  ghost predicate Scanned(c: string, pos: nat, done: seq<string>, all: seq<string>) {
    pos <= |c| && all == done + ItemsFrom(c, pos)
  }

  lemma ScannedStart(c: string)
    ensures Scanned(c, 0, [], ItemsFrom(c, 0))
  {
    assert [] + ItemsFrom(c, 0) == ItemsFrom(c, 0);
  }

  /** One round of the loop moves the item found from the rest of the scan to `done`. */
  lemma ItemsStep(c: string, pos: nat, item: string, next: nat, done: seq<string>, all: seq<string>)
    requires pos < |c| && ItemAt(c, pos) == Some((item, next))
    requires Scanned(c, pos, done, all)
    ensures next <= |c|
    ensures Scanned(c, next, done + [item], all)
  {
    assert ItemsFrom(c, pos) == [item] + ItemsFrom(c, next);
    Seqs.AppendAssoc(done, [item], ItemsFrom(c, next));
  }

  /** Rendering one more item appends its three pieces. */
  lemma {:induction false} RenderSnoc(parsed: seq<seq<Segment>>, x: seq<Segment>, number: int, numbered: bool)
    ensures Render(parsed + [x], number, numbered)
         == Render(parsed, number, numbered) + ([Marker(number + |parsed|, numbered)] + x + [Text("\n")])
    decreases |parsed|
  {
    var b := [Marker(number + |parsed|, numbered)] + x + [Text("\n")];
    if parsed == [] {
      assert [x][1..] == [];
      RenderUnfold([x], number, numbered);
    } else {
      var a := [Marker(number, numbered)] + parsed[0] + [Text("\n")];
      var tail := Render(parsed[1..], number + 1, numbered);
      assert (parsed + [x])[1..] == parsed[1..] + [x] && (parsed + [x])[0] == parsed[0];
      RenderUnfold(parsed + [x], number, numbered);
      RenderUnfold(parsed, number, numbered);
      assert |parsed[1..]| == |parsed| - 1;
      RenderSnoc(parsed[1..], x, number + 1, numbered);
      Seqs.AppendAssoc(a, tail, b);
    }
  }

  lemma {:induction false} InlineEachSnoc(items: seq<string>, x: string)
    ensures InlineEach(items + [x]) == InlineEach(items) + [InlineFrom(x, 0)]
    decreases |items|
  {
    if items == [] {
      assert [x][1..] == [];
    } else {
      assert (items + [x])[1..] == items[1..] + [x] && (items + [x])[0] == items[0];
      InlineEachSnoc(items[1..], x);
      Seqs.AppendAssoc([InlineFrom(items[0], 0)], InlineEach(items[1..]), [InlineFrom(x, 0)]);
    }
  }

  /** The segments rendered so far are those of the items in `done`. */
  ghost predicate RenderedAs(segments: seq<Segment>, done: seq<string>, numbered: bool) {
    segments == Render(InlineEach(done), 1, numbered)
  }

  lemma RenderedNone(numbered: bool)
    ensures RenderedAs([], [], numbered)
  {
  }

  /** One round of the loop extends the rendering of `done` by the item x. */
  lemma RenderStep(segments: seq<Segment>, done: seq<string>, x: string, numbered: bool, marker: Segment,
                   itemSegments: seq<Segment>)
    requires RenderedAs(segments, done, numbered)
    requires marker == Marker(1 + |done|, numbered) && itemSegments == InlineFrom(x, 0)
    ensures RenderedAs(segments + ([marker] + itemSegments + [Text("\n")]), done + [x], numbered)
  {
    RenderSnoc(InlineEach(done), itemSegments, 1, numbered);
    InlineEachSnoc(done, x);
  }

  /** One round of the `parseListContent` loop, for the `<item>` at st closed at ie: both
      loop invariants hold for the state after the round. */
  lemma ListRound(c: string, pos: nat, item: string, next: nat, done: seq<string>, all: seq<string>,
                  segments: seq<Segment>, numbered: bool, marker: Segment, itemSegments: seq<Segment>)
    requires pos < |c| && ItemAt(c, pos) == Some((item, next))
    requires Scanned(c, pos, done, all) && RenderedAs(segments, done, numbered)
    requires marker == Marker(1 + |done|, numbered) && itemSegments == InlineFrom(item, 0)
    ensures pos < next <= |c|
    ensures Scanned(c, next, done + [item], all)
    ensures RenderedAs(segments + ([marker] + itemSegments + [Text("\n")]), done + [item], numbered)
  {
    ItemsStep(c, pos, item, next, done, all);
    RenderStep(segments, done, item, numbered, marker, itemSegments);
  }

  /** When the scan has no item left, the segments are the whole list's. */
  lemma ListDone(c: string, pos: nat, done: seq<string>, all: seq<string>, segments: seq<Segment>,
                 listType: string)
    requires all == ItemsFrom(c, 0) && Scanned(c, pos, done, all)
    requires RenderedAs(segments, done, listType == "numbered")
    requires pos >= |c| || ItemsFrom(c, pos) == []
    ensures segments == List(c, listType)
  {
    assert ItemsFrom(c, pos) == [];
    assert done == all;
  }

  /** `parseListContent`. */
  method ParseListContent(c: string, listType: string) returns (segments: seq<Segment>)
    ensures segments == List(c, listType)
  {
    segments := [];
    var itemNumber := 1;
    var position := 0;
    var numbered := listType == "numbered";
    ghost var done: seq<string> := [];
    ghost var all := ItemsFrom(c, 0);
    RenderedNone(numbered);
    ScannedStart(c);
    while position < |c|
      invariant Scanned(c, position, done, all)
      invariant RenderedAs(segments, done, numbered)
      invariant numbered ==> itemNumber == 1 + |done|
      decreases |c| - position
    {
      var found := NextItem(c, position);
      if found.None? {
        ItemsStop(c, position);
        break;
      }
      var (itemContent, next) := found.value;
      var marker: Segment;
      if numbered {
        marker := Segment(NUMBERED_LIST, "", ListNumber(itemNumber));
        itemNumber := itemNumber + 1;
      } else {
        marker := Segment(BULLET, "", NoMeta);
      }
      var itemSegments := ParseInlineContent(itemContent);
      ListRound(c, position, itemContent, next, done, all, segments, numbered, marker, itemSegments);
      segments := segments + ([marker] + itemSegments + [Text("\n")]);
      done := done + [itemContent];
      position := next;
    }
    ListDone(c, position, done, all, segments, listType);
  }

  // ------------------------------------------------------------------ parseXMLTags

  /** `tagContent.match(/type="(numbered|bullet)"/)?.[1] ?? 'bullet'`, scanning from index i:
      the leftmost match decides. */
  function ListTypeFrom(tag: string, i: nat): string
    decreases |tag| - i
  {
    if i >= |tag| then "bullet"
    else if Str.Occurs(tag, TYPE_NUMBERED, i) then "numbered"
    else if Str.Occurs(tag, TYPE_BULLET, i) then "bullet"
    else ListTypeFrom(tag, i + 1)
  }

  function ListType(tag: string): string { ListTypeFrom(tag, 0) }

  /** The regular expression matches `numbered` at k, with no match of either word earlier
      than k at or after i. */
  ghost predicate NumberedFirst(tag: string, i: nat) {
    exists k: nat :: i <= k && Str.Occurs(tag, TYPE_NUMBERED, k)
      && forall j: nat :: i <= j < k ==> !Str.Occurs(tag, TYPE_BULLET, j)
  }

  lemma {:induction false} ListTypeFromSpec(tag: string, i: nat)
    ensures ListTypeFrom(tag, i) == "numbered" <==> NumberedFirst(tag, i)
    ensures ListTypeFrom(tag, i) == "numbered" || ListTypeFrom(tag, i) == "bullet"
    decreases |tag| - i
  {
    if i >= |tag| {
    } else if Str.Occurs(tag, TYPE_NUMBERED, i) {
      assert NumberedFirst(tag, i);
    } else if Str.Occurs(tag, TYPE_BULLET, i) {
    } else {
      ListTypeFromSpec(tag, i + 1);
      if NumberedFirst(tag, i) {
        var k: nat :| i <= k && Str.Occurs(tag, TYPE_NUMBERED, k)
          && forall j: nat :: i <= j < k ==> !Str.Occurs(tag, TYPE_BULLET, j);
        assert k != i;
        assert NumberedFirst(tag, i + 1);
      }
      if NumberedFirst(tag, i + 1) {
        var k: nat :| i + 1 <= k && Str.Occurs(tag, TYPE_NUMBERED, k)
          && forall j: nat :: i + 1 <= j < k ==> !Str.Occurs(tag, TYPE_BULLET, j);
        assert forall j: nat :: i <= j < k ==> !Str.Occurs(tag, TYPE_BULLET, j);
      }
    }
  }

  /** A list is numbered exactly when `type="numbered"` occurs in its tag with no
      `type="bullet"` starting earlier; every other tag, including one without a type
      attribute, gives a bulleted list. */
  lemma ListTypeSpec(tag: string)
    ensures ListType(tag) == "numbered" <==> NumberedFirst(tag, 0)
    ensures ListType(tag) != "numbered" ==> ListType(tag) == "bullet"
  {
    ListTypeFromSpec(tag, 0);
  }

  predicate IsClosingTag(tag: string) {
    tag == "/p" || tag == "/list" || tag == "/item" || tag == "/business"
  }

  /** What one round of the `parseXMLTags` loop does at cursor pos: the segments it pushes
      and the next cursor, or `None` where the loop breaks (a `<` with no `>` after it). */
  function XmlStep(c: string, pos: nat): (r: (seq<Segment>, Option<nat>))
    requires pos < |c|
    ensures r.1.Some? ==> pos < r.1.value <= |c|
  {
    if c[pos] == '<' then
      match Str.IndexOf(c, ">", pos)
      case None => ([Text(c[pos..])], None)
      case Some(te) =>
        assert c[te] == '>';
        TagStep(c, pos, te)
    else
      var end := match Str.IndexOf(c, "<", pos) case None => |c| case Some(n) => n;
      assert end > pos by {
        if Str.IndexOf(c, "<", pos).Some? { assert c[end] == '<'; }
      }
      (TextIfContent(c[pos..end]), Some(end))
  }

  /** The round for a tag `c[pos..te + 1]`: a paragraph or list with its closing tag is
      parsed and skipped as a whole, one without it only advances the cursor by one; a
      closing tag is dropped; any other tag is kept as literal text. */
  function TagStep(c: string, pos: nat, te: nat): (r: (seq<Segment>, Option<nat>))
    requires pos < te < |c|
    ensures r.1.Some? && pos < r.1.value <= |c|
  {
    var full := c[pos..te + 1];
    var tag := full[1..|full| - 1];
    if Str.StartsWith(tag, "p") then
      match Str.IndexOf(c, "</p>", te)
      case Some(ce) => (InlineFrom(Str.Substring(c, te + 1, ce), 0) + [Text("\n\n")], Some(ce + 4))
      case None => ([], Some(pos + 1))
    else if Str.StartsWith(tag, "list") then
      match Str.IndexOf(c, "</list>", te)
      case Some(ce) => (List(Str.Substring(c, te + 1, ce), ListType(tag)), Some(ce + 7))
      case None => ([], Some(pos + 1))
    else if IsClosingTag(tag) then ([], Some(te + 1))
    else ([Text(full)], Some(te + 1))
  }

  /** The segments `parseXMLTags` pushes from cursor `pos` on. */
  function XmlFrom(c: string, pos: nat): seq<Segment>
    requires pos <= |c|
    decreases |c| - pos
  {
    if pos >= |c| then []
    else
      var (pushed, next) := XmlStep(c, pos);
      pushed + (if next.None? then [] else XmlFrom(c, next.value))
  }

  /** `parseXMLTags`: blank input gives the fixed placeholder. */
  function Xml(c: string): seq<Segment> {
    if Str.Trim(c) == [] then [Text(NO_RESPONSE)] else XmlFrom(c, 0)
  }

  /** One round of the loop moves what it pushes from the rest of the scan to `segments`. */
  lemma XmlRound(c: string, pos: nat, segments: seq<Segment>)
    requires pos < |c| && Str.Trim(c) != []
    requires Xml(c) == segments + XmlFrom(c, pos)
    ensures var (pushed, next) := XmlStep(c, pos);
      Xml(c) == (segments + pushed) + (if next.None? then [] else XmlFrom(c, next.value))
  {
    var (pushed, next) := XmlStep(c, pos);
    Seqs.AppendAssoc(segments, pushed, if next.None? then [] else XmlFrom(c, next.value));
  }

  /** `parseXMLTags`. */
  method ParseXmlTags(c: string) returns (segments: seq<Segment>)
    ensures segments == Xml(c)
  {
    if Str.Trim(c) == [] {
      return [Text(NO_RESPONSE)];
    }
    segments := [];
    var position := 0;
    while position < |c|
      invariant position <= |c|
      invariant Xml(c) == segments + XmlFrom(c, position)
      decreases |c| - position
    {
      XmlRound(c, position, segments);
      if c[position] == '<' {
        var tagEnd := Str.IndexOf(c, ">", position);
        if tagEnd.None? {
          segments := segments + [Text(c[position..])];
          break;
        }
        assert c[tagEnd.value] == '>';
        var pushed, next := ReadTag(c, position, tagEnd.value);
        segments := segments + pushed;
        position := next;
      } else {
        var nextTag := Str.IndexOf(c, "<", position);
        var textEnd := if nextTag.None? then |c| else nextTag.value;
        var text := c[position..textEnd];
        var pushed: seq<Segment> := [];
        if Str.Trim(text) != [] {
          pushed := [Text(text)];
        }
        segments := segments + pushed;
        position := textEnd;
      }
    }
  }

  /** The tag branches of the `parseXMLTags` loop. */
  method ReadTag(c: string, position: nat, tagEnd: nat) returns (pushed: seq<Segment>, next: nat)
    requires position < tagEnd < |c|
    ensures (pushed, Some(next)) == TagStep(c, position, tagEnd)
  {
    var fullTag := c[position..tagEnd + 1];
    var tagContent := fullTag[1..|fullTag| - 1];
    if Str.StartsWith(tagContent, "p") {
      var contentEnd := Str.IndexOf(c, "</p>", tagEnd);
      if contentEnd.Some? {
        var parsed := ParseInlineContent(Str.Substring(c, tagEnd + 1, contentEnd.value));
        pushed := parsed + [Text("\n\n")];
        next := contentEnd.value + 4;
      } else {
        pushed, next := [], position + 1;
      }
    } else if Str.StartsWith(tagContent, "list") {
      var listType := ListType(tagContent);
      var contentEnd := Str.IndexOf(c, "</list>", tagEnd);
      if contentEnd.Some? {
        pushed := ParseListContent(Str.Substring(c, tagEnd + 1, contentEnd.value), listType);
        next := contentEnd.value + 7;
      } else {
        pushed, next := [], position + 1;
      }
    } else if IsClosingTag(tagContent) {
      pushed, next := [], tagEnd + 1;
    } else {
      pushed, next := [Text(fullTag)], tagEnd + 1;
    }
  }

  // ------------------------------------------------------------------ properties

  /** The segments the parser can build: text that is not white space (or is one of the
      two separators, or the empty trimmed name of a `<business>` tag with nothing in it),
      empty-content list markers, and database indicators carrying a name. Bold and italic
      segments are never built. */
  predicate Built(s: Segment) {
    match s.kind
    case TEXT => s.meta == NoMeta && (!Str.IsBlank(s.content) || s.content in {"\n\n", "\n", ""})
    case NUMBERED_LIST => s.content == "" && s.meta.ListNumber?
    case BULLET => s.content == "" && s.meta == NoMeta
    case DATABASE_INDICATOR => s.content == "" && s.meta.Business?
    case _ => false
  }

  predicate AllBuilt(segs: seq<Segment>) {
    forall i :: 0 <= i < |segs| ==> Built(segs[i])
  }

  /** Only text and database indicators come out of inline content. */
  predicate InlineKind(s: Segment) {
    s.kind == TEXT || s.kind == DATABASE_INDICATOR
  }

  predicate AllInline(segs: seq<Segment>) {
    forall i :: 0 <= i < |segs| ==> InlineKind(segs[i]) && Built(segs[i])
  }

  lemma AllInlineAppend(a: seq<Segment>, b: seq<Segment>)
    requires AllInline(a) && AllInline(b)
    ensures AllInline(a + b)
  {
    forall i | 0 <= i < |a + b| ensures InlineKind((a + b)[i]) && Built((a + b)[i]) {
      if i >= |a| { assert (a + b)[i] == b[i - |a|]; }
    }
  }

  lemma AllBuiltAppend(a: seq<Segment>, b: seq<Segment>)
    requires AllBuilt(a) && AllBuilt(b)
    ensures AllBuilt(a + b)
  {
    forall i | 0 <= i < |a + b| ensures Built((a + b)[i]) {
      if i >= |a| { assert (a + b)[i] == b[i - |a|]; }
    }
  }

  lemma TextIfContentBuilt(s: string)
    ensures AllInline(TextIfContent(s))
  {
    if Str.Trim(s) != [] {
      Str.TrimEmptyIffBlank(s);
    }
  }

  /** A trimmed name is empty or not white space. */
  lemma TrimmedBuilt(s: string)
    ensures Str.Trim(s) == "" || !Str.IsBlank(Str.Trim(s))
  {
    var t := Str.Trim(s);
    Str.TrimShape(s);
    if t != "" { assert !Str.IsSpace(t[0]); }
  }

  lemma BusinessTagBuilt(c: string, bs: nat)
    requires BusinessTag(c, bs).Some?
    ensures AllInline([BusinessTag(c, bs).value.0])
  {
    var te := Str.IndexOf(c, ">", bs).value;
    var be := Str.IndexOf(c, BUSINESS_CLOSE, bs).value;
    BusinessTagFound(c, bs, te, be);
    TagSegmentBuilt(c, bs, te, be);
  }

  lemma TagSegmentBuilt(c: string, bs: nat, te: nat, be: nat)
    requires bs <= te < |c|
    ensures AllInline([TagSegment(c, bs, te, be)])
  {
    var name := Str.Trim(Str.Substring(c, te + 1, be));
    TrimmedBuilt(Str.Substring(c, te + 1, be));
    var seg := TagSegment(c, bs, te, be);
    assert seg == Segment(DATABASE_INDICATOR, "", Business(name)) || seg == Text(name);
    assert [seg][0] == seg;
  }

  /** Inline parsing yields only built text and database-indicator segments. */
  lemma {:induction false} InlineBuilt(c: string, pos: nat)
    requires pos <= |c|
    ensures AllInline(InlineFrom(c, pos))
    decreases |c| - pos
  {
    if pos < |c| {
      match Str.IndexOf(c, BUSINESS_OPEN, pos)
      case None =>
        InlineDone(c, pos);
        TextIfContentBuilt(c[pos..]);
      case Some(bs) =>
        var (seg, next) := if BusinessTag(c, bs).Some? then BusinessTag(c, bs).value else (Text(BUSINESS_OPEN), bs + 9);
        InlineStep(c, pos, bs, seg, next);
        InlineBuilt(c, next);
        StepSegmentBuilt(c, bs, seg, next);
        InlinePieces(c[pos..bs], seg, InlineFrom(c, next));
    }
  }

  /** The segment one round pushes for a `<business`: a tag's segment or the literal text. */
  lemma StepSegmentBuilt(c: string, bs: nat, seg: Segment, next: nat)
    requires BusinessTag(c, bs) == Some((seg, next)) || (BusinessTag(c, bs).None? && seg == Text(BUSINESS_OPEN))
    ensures AllInline([seg])
  {
    if BusinessTag(c, bs).Some? {
      BusinessTagBuilt(c, bs);
    } else {
      assert !Str.IsBlank(BUSINESS_OPEN) by { assert !Str.IsSpace(BUSINESS_OPEN[0]); }
    }
  }

  lemma InlinePieces(s: string, seg: Segment, rest: seq<Segment>)
    requires AllInline([seg]) && AllInline(rest)
    ensures AllInline(TextIfContent(s) + [seg] + rest)
  {
    TextIfContentBuilt(s);
    AllInlineAppend(TextIfContent(s), [seg]);
    AllInlineAppend(TextIfContent(s) + [seg], rest);
  }

  /** The numbered-list markers for items number, number + 1, ..., in that order. */
  function Numbers(number: int, k: nat): (r: seq<Segment>)
    ensures |r| == k
    ensures forall i :: 0 <= i < k ==> r[i] == Segment(NUMBERED_LIST, "", ListNumber(number + i))
  {
    seq(k, i requires 0 <= i < k => Segment(NUMBERED_LIST, "", ListNumber(number + i)))
  }

  lemma NumbersCons(number: int, k: nat)
    requires k > 0
    ensures Numbers(number, k) == [Marker(number, true)] + Numbers(number + 1, k - 1)
  {
    var r := [Marker(number, true)] + Numbers(number + 1, k - 1);
    forall i | 0 <= i < k ensures Numbers(number, k)[i] == r[i] {
      if i > 0 { assert r[i] == Numbers(number + 1, k - 1)[i - 1]; }
    }
  }

  function Bullets(k: nat): (r: seq<Segment>)
    ensures |r| == k && forall i :: 0 <= i < k ==> r[i] == Segment(BULLET, "", NoMeta)
  {
    seq(k, i requires 0 <= i < k => Segment(BULLET, "", NoMeta))
  }

  /** Every item parses to built inline segments. */
  predicate ItemsInline(parsed: seq<seq<Segment>>) {
    forall i :: 0 <= i < |parsed| ==> AllInline(parsed[i])
  }

  lemma {:induction false} InlineEachInline(items: seq<string>)
    ensures ItemsInline(InlineEach(items))
    decreases |items|
  {
    if items != [] {
      InlineBuilt(items[0], 0);
      InlineEachInline(items[1..]);
      var r := InlineEach(items);
      assert r == [InlineFrom(items[0], 0)] + InlineEach(items[1..]);
      forall i | 0 <= i < |r| ensures AllInline(r[i]) {
        if i > 0 { assert r[i] == InlineEach(items[1..])[i - 1]; }
      }
    }
  }

  lemma InlineNoMarkers(inl: seq<Segment>)
    requires AllInline(inl)
    ensures SegmentsByType(inl, NUMBERED_LIST) == []
    ensures SegmentsByType(inl, BULLET) == []
  {
    SegmentsByTypeNone(inl, NUMBERED_LIST);
    SegmentsByTypeNone(inl, BULLET);
  }

  /** Filtering one rendered item for a marker type keeps just its marker. */
  lemma ItemMarkers(m: Segment, inl: seq<Segment>, rest: seq<Segment>, t: SegmentType)
    requires SegmentsByType(inl, t) == [] && t != TEXT
    ensures SegmentsByType([m] + inl + [Text("\n")] + rest, t)
         == SegmentsByType([m], t) + SegmentsByType(rest, t)
  {
    SegmentsByTypeAppend([m] + inl + [Text("\n")], rest, t);
    SegmentsByTypeAppend([m] + inl, [Text("\n")], t);
    SegmentsByTypeAppend([m], inl, t);
    assert SegmentsByType([Text("\n")], t) == [];
  }

  lemma RenderUnfold(parsed: seq<seq<Segment>>, number: int, numbered: bool)
    requires parsed != []
    ensures Render(parsed, number, numbered)
         == [Marker(number, numbered)] + parsed[0] + [Text("\n")] + Render(parsed[1..], number + 1, numbered)
  {
  }

  /** The numbered markers of a rendered list: one per item, carrying the item's number,
      in order, when the list is numbered; none otherwise. */
  lemma {:induction false} RenderNumbers(parsed: seq<seq<Segment>>, number: int, numbered: bool)
    requires ItemsInline(parsed)
    ensures SegmentsByType(Render(parsed, number, numbered), NUMBERED_LIST)
         == if numbered then Numbers(number, |parsed|) else []
    decreases |parsed|
  {
    if parsed != [] {
      RenderNumbers(parsed[1..], number + 1, numbered);
      InlineNoMarkers(parsed[0]);
      RenderUnfold(parsed, number, numbered);
      ItemMarkers(Marker(number, numbered), parsed[0], Render(parsed[1..], number + 1, numbered), NUMBERED_LIST);
      if numbered {
        NumbersCons(number, |parsed|);
      }
    }
  }

  /** The bullet markers of a rendered list: one per item unless the list is numbered. */
  lemma {:induction false} RenderBullets(parsed: seq<seq<Segment>>, number: int, numbered: bool)
    requires ItemsInline(parsed)
    ensures SegmentsByType(Render(parsed, number, numbered), BULLET)
         == if numbered then [] else Bullets(|parsed|)
    decreases |parsed|
  {
    if parsed != [] {
      RenderBullets(parsed[1..], number + 1, numbered);
      InlineNoMarkers(parsed[0]);
      RenderUnfold(parsed, number, numbered);
      ItemMarkers(Marker(number, numbered), parsed[0], Render(parsed[1..], number + 1, numbered), BULLET);
      if !numbered {
        assert [Marker(number, numbered)] + Bullets(|parsed| - 1) == Bullets(|parsed|);
      }
    }
  }

  /** Within one `<list>` the NUMBERED_LIST markers are numbered 1, 2, 3, ... in item order
      when the list type is "numbered"; any other list type gives one bullet per item and no
      numbered marker. */
  lemma ListNumbering(c: string, listType: string)
    ensures listType == "numbered" ==>
      SegmentsByType(List(c, listType), NUMBERED_LIST) == Numbers(1, |ItemsFrom(c, 0)|)
      && SegmentsByType(List(c, listType), BULLET) == []
    ensures listType != "numbered" ==>
      SegmentsByType(List(c, listType), NUMBERED_LIST) == []
      && SegmentsByType(List(c, listType), BULLET) == Bullets(|ItemsFrom(c, 0)|)
  {
    var parsed := InlineEach(ItemsFrom(c, 0));
    InlineEachInline(ItemsFrom(c, 0));
    RenderNumbers(parsed, 1, listType == "numbered");
    RenderBullets(parsed, 1, listType == "numbered");
  }

  /** Rendered lists are made of built segments. */
  lemma {:induction false} RenderBuilt(parsed: seq<seq<Segment>>, number: int, numbered: bool)
    requires ItemsInline(parsed)
    ensures AllBuilt(Render(parsed, number, numbered))
    decreases |parsed|
  {
    if parsed != [] {
      var m := [Marker(number, numbered)];
      var inl := parsed[0];
      RenderBuilt(parsed[1..], number + 1, numbered);
      AllInlineBuilt(inl);
      AllBuiltAppend(m, inl);
      AllBuiltAppend(m + inl, [Text("\n")]);
      AllBuiltAppend(m + inl + [Text("\n")], Render(parsed[1..], number + 1, numbered));
    }
  }

  lemma AllInlineBuilt(segs: seq<Segment>)
    requires AllInline(segs)
    ensures AllBuilt(segs)
  {
  }

  lemma XmlUnfold(c: string, pos: nat)
    requires pos < |c|
    ensures var (pushed, next) := XmlStep(c, pos);
      XmlFrom(c, pos) == pushed + (if next.None? then [] else XmlFrom(c, next.value))
  {
  }

  lemma TagStepBuilt(c: string, pos: nat, te: nat)
    requires pos < te < |c| && c[pos] == '<'
    ensures AllBuilt(TagStep(c, pos, te).0)
  {
    var full := c[pos..te + 1];
    var tag := full[1..|full| - 1];
    if Str.StartsWith(tag, "p") {
      match Str.IndexOf(c, "</p>", te)
      case Some(ce) =>
        var inner := Str.Substring(c, te + 1, ce);
        InlineBuilt(inner, 0);
        AllInlineBuilt(InlineFrom(inner, 0));
        AllBuiltAppend(InlineFrom(inner, 0), [Text("\n\n")]);
      case None =>
    } else if Str.StartsWith(tag, "list") {
      match Str.IndexOf(c, "</list>", te)
      case Some(ce) =>
        InlineEachInline(ItemsFrom(Str.Substring(c, te + 1, ce), 0));
        RenderBuilt(InlineEach(ItemsFrom(Str.Substring(c, te + 1, ce), 0)), 1, ListType(tag) == "numbered");
      case None =>
    } else if !IsClosingTag(tag) {
      assert full[0] == '<';
    }
  }

  lemma XmlStepBuilt(c: string, pos: nat)
    requires pos < |c|
    ensures AllBuilt(XmlStep(c, pos).0)
  {
    if c[pos] == '<' {
      match Str.IndexOf(c, ">", pos)
      case None =>
        assert c[pos..][0] == '<';
      case Some(te) =>
        assert c[te] == '>';
        TagStepBuilt(c, pos, te);
    } else {
      var end := match Str.IndexOf(c, "<", pos) case None => |c| case Some(n) => n;
      TextIfContentBuilt(c[pos..end]);
      AllInlineBuilt(TextIfContent(c[pos..end]));
    }
  }

  lemma {:induction false} XmlFromBuilt(c: string, pos: nat)
    requires pos <= |c|
    ensures AllBuilt(XmlFrom(c, pos))
    decreases |c| - pos
  {
    if pos < |c| {
      var (pushed, next) := XmlStep(c, pos);
      XmlUnfold(c, pos);
      XmlStepBuilt(c, pos);
      if next.Some? {
        XmlFromBuilt(c, next.value);
        AllBuiltAppend(pushed, XmlFrom(c, next.value));
      } else {
        assert XmlFrom(c, pos) == pushed + [];
      }
    }
  }

  /** Every segment of a parsed response is a built segment: never bold or italic, list
      markers with empty content, and no white-space text other than the two separators
      and an empty business name. */
  lemma XmlBuilt(c: string)
    ensures AllBuilt(Xml(c))
  {
    if Str.Trim(c) != [] {
      XmlFromBuilt(c, 0);
    } else {
      assert !Str.IsSpace(NO_RESPONSE[0]);
    }
  }

  /** Empty or white-space input yields the single placeholder segment; any other input is
      scanned from its first character. */
  lemma BlankInput(c: string)
    ensures Str.IsBlank(c) ==> Xml(c) == [Text(NO_RESPONSE)]
    ensures !Str.IsBlank(c) ==> Xml(c) == XmlFrom(c, 0)
  {
    Str.TrimEmptyIffBlank(c);
  }

  /** Input that is not blank and holds no `<` is one text segment, the whole input. */
  lemma PlainInput(c: string)
    requires !Str.IsBlank(c) && forall i :: 0 <= i < |c| ==> c[i] != '<'
    ensures Xml(c) == [Text(c)]
  {
    BlankInput(c);
    Str.TrimEmptyIffBlank(c);
    Str.IndexOfNoChar(c, '<', 0);
    XmlUnfold(c, 0);
    assert c[0..|c|] == c;
  }

  /** A `<` with no `>` after it turns the rest of the input into one text segment. */
  lemma UnclosedTag(c: string, pos: nat)
    requires pos < |c| && c[pos] == '<' && forall j :: pos <= j < |c| ==> c[j] != '>'
    ensures XmlFrom(c, pos) == [Text(c[pos..])]
  {
    Str.IndexOfNoChar(c, '>', pos);
    XmlUnfold(c, pos);
  }

  /** The tag opening at pos and closed by the first `>` after it, at te. */
  predicate TagAt(c: string, pos: nat, te: nat) {
    pos < te < |c| && c[pos] == '<' && c[te] == '>' && forall j :: pos <= j < te ==> c[j] != '>'
  }

  lemma XmlStepTag(c: string, pos: nat, te: nat)
    requires TagAt(c, pos, te)
    ensures XmlStep(c, pos) == TagStep(c, pos, te)
  {
    Str.IndexOfChar(c, '>', pos, te);
  }

  /** At a tag the scan pushes what `TagStep` gives and resumes where it says. */
  lemma XmlAtTag(c: string, pos: nat, te: nat, pushed: seq<Segment>, next: nat)
    requires TagAt(c, pos, te) && TagStep(c, pos, te) == (pushed, Some(next))
    ensures next <= |c| && XmlFrom(c, pos) == pushed + XmlFrom(c, next)
  {
    XmlUnfold(c, pos);
    XmlStepTag(c, pos, te);
  }

  lemma TagName(c: string, pos: nat, te: nat)
    requires pos < te < |c|
    ensures var full := c[pos..te + 1]; full[1..|full| - 1] == c[pos + 1..te]
  {
    var full := c[pos..te + 1];
    var a, b := full[1..|full| - 1], c[pos + 1..te];
    forall i | 0 <= i < |b| ensures a[i] == b[i] {
      assert a[i] == full[i + 1];
    }
  }

  /** A tag that is neither a paragraph, a list nor a closing tag is kept verbatim as text
      and scanning resumes after it. */
  lemma UnknownTag(c: string, pos: nat, te: nat)
    requires TagAt(c, pos, te)
    requires var tag := c[pos + 1..te];
      !Str.StartsWith(tag, "p") && !Str.StartsWith(tag, "list") && !IsClosingTag(tag)
    ensures XmlFrom(c, pos) == [Text(c[pos..te + 1])] + XmlFrom(c, te + 1)
  {
    TagStepOther(c, pos, te);
    XmlAtTag(c, pos, te, [Text(c[pos..te + 1])], te + 1);
  }

  lemma TagStepOther(c: string, pos: nat, te: nat)
    requires pos < te < |c|
    requires var tag := c[pos + 1..te];
      !Str.StartsWith(tag, "p") && !Str.StartsWith(tag, "list") && !IsClosingTag(tag)
    ensures TagStep(c, pos, te) == ([Text(c[pos..te + 1])], Some(te + 1))
  {
    TagName(c, pos, te);
  }

  lemma TagStepClosing(c: string, pos: nat, te: nat)
    requires pos < te < |c| && IsClosingTag(c[pos + 1..te])
    ensures TagStep(c, pos, te) == ([], Some(te + 1))
  {
    TagName(c, pos, te);
    var tag := c[pos + 1..te];
    assert tag[0] == '/';
    if Str.StartsWith(tag, "p") {
      Str.StartsWithFirst(tag, "p");
      assert false;
    }
    if Str.StartsWith(tag, "list") {
      Str.StartsWithFirst(tag, "list");
      assert false;
    }
  }

  /** Closing tags `</p>`, `</list>`, `</item>` and `</business>` met on their own are
      dropped. */
  lemma ClosingTag(c: string, pos: nat, te: nat)
    requires TagAt(c, pos, te) && IsClosingTag(c[pos + 1..te])
    ensures XmlFrom(c, pos) == XmlFrom(c, te + 1)
  {
    TagStepClosing(c, pos, te);
    XmlAtTag(c, pos, te, [], te + 1);
    assert [] + XmlFrom(c, te + 1) == XmlFrom(c, te + 1);
  }

  /** Any tag whose name starts with `p` (`<p>`, `<pre>`, `<para x>`) opens a paragraph:
      with a `</p>` after it, the text up to the first such `</p>` is parsed inline and
      followed by a blank-line separator. */
  lemma ParagraphTag(c: string, pos: nat, te: nat, ce: nat)
    requires TagAt(c, pos, te) && Str.StartsWith(c[pos + 1..te], "p")
    requires Str.IndexOf(c, "</p>", te) == Some(ce)
    ensures te < ce && ce + 4 <= |c|
    ensures XmlFrom(c, pos) == InlineFrom(c[te + 1..ce], 0) + [Text("\n\n")] + XmlFrom(c, ce + 4)
  {
    TagStepParagraph(c, pos, te, ce);
    XmlAtTag(c, pos, te, InlineFrom(c[te + 1..ce], 0) + [Text("\n\n")], ce + 4);
  }

  lemma TagStepParagraph(c: string, pos: nat, te: nat, ce: nat)
    requires pos < te < |c| && c[te] == '>' && Str.StartsWith(c[pos + 1..te], "p")
    requires Str.IndexOf(c, "</p>", te) == Some(ce)
    ensures te < ce && ce + 4 <= |c|
    ensures TagStep(c, pos, te) == (InlineFrom(c[te + 1..ce], 0) + [Text("\n\n")], Some(ce + 4))
  {
    assert c[ce] == '<';
    TagName(c, pos, te);
    var full := c[pos..te + 1];
    assert Str.StartsWith(full[1..|full| - 1], "p");
    assert Str.Substring(c, te + 1, ce) == c[te + 1..ce];
  }

  const DB_OPEN := "<business db=\"true\">"
  const PLAIN_OPEN := "<business>"

  /** No tag brackets in x. */
  predicate NoAngle(x: string) {
    forall i :: 0 <= i < |x| ==> x[i] != '<' && x[i] != '>'
  }

  /** In `open + x + </business>`, the only `</business>` is the one at the end. */
  lemma CloseFound(open: string, x: string)
    requires 2 <= |open| && open[0] == '<' && open[1] != '/'
    requires forall i :: 1 <= i < |open| ==> open[i] != '<'
    requires NoAngle(x)
    ensures Str.IndexOf(open + x + BUSINESS_CLOSE, BUSINESS_CLOSE, 0) == Some(|open| + |x|)
  {
    var c := open + x + BUSINESS_CLOSE;
    var e := |open| + |x|;
    assert c[e..e + 11] == BUSINESS_CLOSE;
    forall j | 0 <= j < e ensures !Str.At(c, BUSINESS_CLOSE, j) {
      CloseNotAt(open, x, j);
    }
    Str.IndexOfIs(c, BUSINESS_CLOSE, 0, e);
  }

  lemma NotAtFirst(s: string, t: string, j: nat)
    requires 0 < |t| && j < |s| && s[j] != t[0]
    ensures !Str.At(s, t, j)
  {
    if Str.At(s, t, j) {
      Str.AtFirst(s, t, j);
    }
  }

  /** No `</business>` starts inside `open + x`: its `<` would have to be the opening one,
      which is not followed by `/`. */
  lemma CloseNotAt(open: string, x: string, j: nat)
    requires 2 <= |open| && open[0] == '<' && open[1] != '/'
    requires forall i :: 1 <= i < |open| ==> open[i] != '<'
    requires NoAngle(x) && j < |open| + |x|
    ensures !Str.At(open + x + BUSINESS_CLOSE, BUSINESS_CLOSE, j)
  {
    var c := open + x + BUSINESS_CLOSE;
    if j == 0 {
      assert c[0..11][1] == open[1] != BUSINESS_CLOSE[1];
    } else {
      if j < |open| {
        assert c[j] == open[j];
      } else {
        assert c[j] == x[j - |open|];
      }
      NotAtFirst(c, BUSINESS_CLOSE, j);
    }
  }

  /** The tag opening at 0 of `open + x + </business>`, whose first `>` is its last
      character: its segment, and the scan ends after it. */
  lemma WholeTag(open: string, x: string)
    requires 10 <= |open| && open[..9] == BUSINESS_OPEN && open[|open| - 1] == '>'
    requires forall i :: 1 <= i < |open| ==> open[i] != '<'
    requires forall i :: 0 <= i < |open| - 1 ==> open[i] != '>'
    requires NoAngle(x)
    ensures InlineFrom(open + x + BUSINESS_CLOSE, 0)
         == [TagSegment(open + x + BUSINESS_CLOSE, 0, |open| - 1, |open| + |x|)]
  {
    var c := open + x + BUSINESS_CLOSE;
    var te := |open| - 1;
    var be := |open| + |x|;
    assert c[..9] == BUSINESS_OPEN;
    assert c[0..9] == BUSINESS_OPEN;
    Str.IndexOfIs(c, BUSINESS_OPEN, 0, 0);
    forall j | 0 <= j < te ensures c[j] != '>' { assert c[j] == open[j]; }
    assert c[te] == '>';
    Str.IndexOfChar(c, '>', 0, te);
    assert open[1] == 'b';
    CloseFound(open, x);
    BusinessTagFound(c, 0, te, be);
    InlineStep(c, 0, 0, TagSegment(c, 0, te, be), be + 11);
    assert c[0..0] == "";
    assert InlineFrom(c, be + 11) == [];
  }

  /** `<business db="true">X</business>` is a database indicator with empty content that
      carries X trimmed as the business name. */
  lemma DatabaseBusiness(x: string)
    requires NoAngle(x)
    ensures InlineFrom(DB_OPEN + x + BUSINESS_CLOSE, 0)
         == [Segment(DATABASE_INDICATOR, "", Business(Str.Trim(x)))]
  {
    var c := DB_OPEN + x + BUSINESS_CLOSE;
    DbOpenShape();
    WholeTag(DB_OPEN, x);
    assert c[0..20] == DB_OPEN;
    DbFlagInOpen();
    assert c[20..20 + |x|] == x;
  }

  lemma DbOpenShape()
    ensures 10 <= |DB_OPEN| && DB_OPEN[..9] == BUSINESS_OPEN && DB_OPEN[|DB_OPEN| - 1] == '>'
    ensures forall i :: 1 <= i < |DB_OPEN| ==> DB_OPEN[i] != '<'
    ensures forall i :: 0 <= i < |DB_OPEN| - 1 ==> DB_OPEN[i] != '>'
  {
  }

  lemma DbFlagInOpen()
    ensures Str.Contains(DB_OPEN, DB_FLAG)
  {
    assert Str.Occurs(DB_OPEN, DB_FLAG, 10);
    Str.OccursAt(DB_OPEN, DB_FLAG, 10);
    Str.ContainsAt(DB_OPEN, DB_FLAG, 10);
  }

  /** `<business>X</business>` without `db="true"` is the text X trimmed. */
  lemma PlainBusiness(x: string)
    requires NoAngle(x)
    ensures InlineFrom(PLAIN_OPEN + x + BUSINESS_CLOSE, 0) == [Text(Str.Trim(x))]
  {
    var c := PLAIN_OPEN + x + BUSINESS_CLOSE;
    WholeTag(PLAIN_OPEN, x);
    assert c[0..10] == PLAIN_OPEN;
    if Str.Contains(PLAIN_OPEN, DB_FLAG) {
      var k := Str.ContainsWitness(PLAIN_OPEN, DB_FLAG);
      Str.AtFirst(PLAIN_OPEN, DB_FLAG, k);
      assert false;
    }
    assert c[10..10 + |x|] == x;
  }

  /** A `<business` never closed by `>` is kept as the literal text `<business`, and the
      scan goes on 9 characters later. */
  lemma MalformedBusiness(x: string)
    requires NoAngle(x)
    ensures InlineFrom(BUSINESS_OPEN + x, 0) == [Text(BUSINESS_OPEN)] + TextIfContent(x)
  {
    var c := BUSINESS_OPEN + x;
    assert c[0..9] == BUSINESS_OPEN;
    Str.IndexOfIs(c, BUSINESS_OPEN, 0, 0);
    forall j | 0 <= j < |c| ensures c[j] != '>' {
      if j < 9 { assert c[j] == BUSINESS_OPEN[j]; } else { assert c[j] == x[j - 9]; }
    }
    Str.IndexOfNoChar(c, '>', 0);
    InlineStep(c, 0, 0, Text(BUSINESS_OPEN), 9);
    assert c[0..0] == "";
    if |x| == 0 {
      assert InlineFrom(c, 9) == [];
    } else {
      forall j | 9 <= j < |c| ensures c[j] != BUSINESS_OPEN[0] { assert c[j] == x[j - 9]; }
      Str.IndexOfNoFirst(c, BUSINESS_OPEN, 9);
      InlineDone(c, 9);
      assert c[9..] == x;
    }
  }

  /** `parseAIResponse`. */
  method ParseAIResponse(c: string) returns (m: Message)
    ensures m == Message(Xml(c))
  {
    var segments := ParseXmlTags(c);
    m := Message(segments);
  }
}
