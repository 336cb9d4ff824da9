/** EmbeddingService: the text a business is embedded from, the error wrapping around the
    embeddings call, and the loop that embeds every business and stores the vectors. The
    model's replies and the repository's update results are parameters. */
module EmbeddingService {
  import opened Wrappers
  import Str
  import Js
  import E = BusinessEntity

  /** What `openai.embeddings.create` did: returned its data list, or threw (an Error
      with a message, or some other value). */
  datatype Reply = Returned(data: seq<seq<real>>) | Threw(isError: bool, message: string)

  /** The message of the TypeError raised by `response.data[0].embedding` on empty data. */
  const NO_DATA_MESSAGE := "Cannot read properties of undefined (reading 'embedding')"

  const FAILURE_PREFIX := "Failed to generate embedding: "

  /** `generateEmbedding`: the first vector, or the failure rethrown with its prefix. */
  function GenerateEmbedding(reply: Reply): (r: Result<seq<real>>)
    ensures r.Ok? <==> reply.Returned? && reply.data != []
    ensures r.Ok? ==> r.value == reply.data[0]
    ensures r.Err? ==> Str.StartsWith(r.msg, FAILURE_PREFIX)
    ensures reply.Threw? && reply.isError ==> r.msg == FAILURE_PREFIX + reply.message
    ensures reply.Threw? && !reply.isError ==> r.msg == FAILURE_PREFIX + "Unknown error"
  {
    match reply
    case Returned(data) =>
      if data == [] then
        Str.PrefixStarts(FAILURE_PREFIX, NO_DATA_MESSAGE);
        Err(FAILURE_PREFIX + NO_DATA_MESSAGE)
      else Ok(data[0])
    case Threw(isError, message) =>
      var m := if isError then message else "Unknown error";
      Str.PrefixStarts(FAILURE_PREFIX, m);
      Err(FAILURE_PREFIX + m)
  }

  function NonEmpty(parts: seq<string>): (r: seq<string>)
    ensures forall k :: 0 <= k < |r| ==> r[k] != ""
    ensures forall x :: x in r <==> x in parts && x != ""
    decreases |parts|
  {
    if parts == [] then [] else (if parts[0] != "" then [parts[0]] else []) + NonEmpty(parts[1..])
  }

  function OrEmpty(v: Option<string>): string { if v.Some? then v.value else "" }

  /** The five candidate parts, before the empty ones are dropped. */
  function TextParts(b: E.Business): seq<string> {
    [b.name, OrEmpty(b.industry), OrEmpty(b.neighborhood), b.city, if b.state != "" then b.state else "NC"]
  }

  /** `createBusinessText`: the non-empty parts joined with single spaces. */
  function CreateBusinessText(b: E.Business): string {
    Str.Join(NonEmpty(TextParts(b)), " ")
  }

  /** The text is never empty (the state part is at least "NC"), and when no part holds a
      space, splitting it at spaces gives back exactly the non-empty parts, in order. */
  lemma CreateBusinessTextProps(b: E.Business)
    ensures CreateBusinessText(b) != ""
    ensures (forall k :: 0 <= k < 5 ==> ' ' !in TextParts(b)[k]) ==>
      Str.SplitOn(CreateBusinessText(b), ' ') == NonEmpty(TextParts(b))
  {
    var parts := NonEmpty(TextParts(b));
    assert TextParts(b)[4] in parts;
    JoinNonEmpty(parts, " ");
    if forall k :: 0 <= k < 5 ==> ' ' !in TextParts(b)[k] {
      forall k | 0 <= k < |parts| ensures ' ' !in parts[k] {
        assert parts[k] in TextParts(b);
      }
      assert " " == [' '];
      Str.SplitOnJoin(parts, ' ');
    }
  }

  lemma JoinNonEmpty(parts: seq<string>, sep: string)
    requires parts != [] && parts[0] != ""
    ensures Str.Join(parts, sep) != ""
  {
    if |parts| > 1 {
      assert Str.Join(parts, sep)[0] == parts[0][0];
    }
  }

  /** One business's attempt: embed its text, then store the vector; `None` is success,
      otherwise the error that was caught. */
  function Attempt(b: E.Business, embed: string -> Reply, update: (string, seq<real>) -> Option<string>): Option<string> {
    match GenerateEmbedding(embed(CreateBusinessText(b)))
    case Err(e) => Some(e)
    case Ok(v) => update(b.id, v)
  }

  /** The ids whose embedding was stored, in order. */
  function Stored(bs: seq<E.Business>, embed: string -> Reply, update: (string, seq<real>) -> Option<string>): (r: seq<string>)
    ensures |r| <= |bs|
    decreases |bs|
  {
    if bs == [] then []
    else
      var init := Stored(bs[..|bs| - 1], embed, update);
      if Attempt(bs[|bs| - 1], embed, update).None? then init + [bs[|bs| - 1].id] else init
  }

  /** One more business tried. */
  lemma StoredStep(bs: seq<E.Business>, i: nat, embed: string -> Reply, update: (string, seq<real>) -> Option<string>)
    requires i < |bs|
    ensures Stored(bs[..i + 1], embed, update)
      == Stored(bs[..i], embed, update) + if Attempt(bs[i], embed, update).None? then [bs[i].id] else []
  {
    assert bs[..i + 1][..i] == bs[..i];
  }

  /** `generateBusinessEmbeddings` over the (at most 1000) businesses found: every business
      is tried once, in order; a failure is counted and the loop goes on. `stored` lists the
      `updateEmbedding` calls that succeeded. */
  method GenerateBusinessEmbeddings(bs: seq<E.Business>, embed: string -> Reply,
                                    update: (string, seq<real>) -> Option<string>)
    returns (processed: nat, errors: nat, total: nat, stored: seq<string>)
    ensures processed + errors == total == |bs|
    ensures stored == Stored(bs, embed, update) && processed == |stored|
  {
    processed, errors, stored := 0, 0, [];
    var i := 0;
    while i < |bs|
      invariant 0 <= i <= |bs|
      invariant processed + errors == i
      invariant stored == Stored(bs[..i], embed, update) && processed == |stored|
    {
      StoredStep(bs, i, embed, update);
      var business := bs[i];
      var reply := embed(CreateBusinessText(business));
      match GenerateEmbedding(reply) {
        case Err(_) =>
          errors := errors + 1;
        case Ok(embedding) =>
          var failure := update(business.id, embedding);
          if failure.None? {
            stored := stored + [business.id];
            processed := processed + 1;
          } else {
            errors := errors + 1;
          }
      }
      i := i + 1;
    }
    assert bs[..i] == bs;
    total := |bs|;
  }

  /** A business's id is stored exactly when one of its attempts succeeded. */
  lemma StoredIff(bs: seq<E.Business>, embed: string -> Reply,
                  update: (string, seq<real>) -> Option<string>, id: string)
    ensures id in Stored(bs, embed, update) <==>
      exists k :: 0 <= k < |bs| && bs[k].id == id && Attempt(bs[k], embed, update).None?
  {
    if id in Stored(bs, embed, update) {
      StoredFrom(bs, embed, update, id);
    }
    if exists k :: 0 <= k < |bs| && bs[k].id == id && Attempt(bs[k], embed, update).None? {
      var k :| 0 <= k < |bs| && bs[k].id == id && Attempt(bs[k], embed, update).None?;
      StoredHas(bs, embed, update, k);
    }
  }

  /** A business whose attempt succeeded has its id stored. */
  lemma {:induction false} StoredHas(bs: seq<E.Business>, embed: string -> Reply,
                                     update: (string, seq<real>) -> Option<string>, k: nat)
    requires k < |bs| && Attempt(bs[k], embed, update).None?
    ensures bs[k].id in Stored(bs, embed, update)
    decreases |bs|
  {
    var init := bs[..|bs| - 1];
    if k < |bs| - 1 {
      assert init[k] == bs[k];
      StoredHas(init, embed, update, k);
    }
  }

  /** A stored id belongs to a business whose attempt succeeded. */
  lemma {:induction false} StoredFrom(bs: seq<E.Business>, embed: string -> Reply,
                                      update: (string, seq<real>) -> Option<string>, id: string)
    requires id in Stored(bs, embed, update)
    ensures exists k :: 0 <= k < |bs| && bs[k].id == id && Attempt(bs[k], embed, update).None?
    decreases |bs|
  {
    var init := bs[..|bs| - 1];
    var last := |bs| - 1;
    if Attempt(bs[last], embed, update).None? && bs[last].id == id {
      assert 0 <= last < |bs| && bs[last].id == id && Attempt(bs[last], embed, update).None?;
    } else {
      assert id in Stored(init, embed, update);
      StoredFrom(init, embed, update, id);
      var k :| 0 <= k < |init| && init[k].id == id && Attempt(init[k], embed, update).None?;
      assert bs[k] == init[k];
    }
  }

  /** When the model and the repository never fail, every business is stored. */
  lemma {:induction false} AllStored(bs: seq<E.Business>, embed: string -> Reply,
                                     update: (string, seq<real>) -> Option<string>)
    requires forall k :: 0 <= k < |bs| ==> Attempt(bs[k], embed, update).None?
    ensures |Stored(bs, embed, update)| == |bs|
    decreases |bs|
  {
    if bs != [] {
      AllStored(bs[..|bs| - 1], embed, update);
    }
  }
}
