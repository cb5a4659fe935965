/**
 * The Get Query Answer Lambda: given a Textract AnalyzeDocument response and a query alias,
 * find the QUERY block with that alias, follow its first ANSWER relationship and return the
 * Text of the block that relationship names. Every failure throws an error whose message
 * names it; the guards run in a fixed order.
 */
module QueryAnswer {
  import opened Wrappers
  import opened Search

  /** The `Query` member of a block; only its `Alias` is read. */
  datatype QueryInfo = QueryInfo(alias: Option<string>)

  /** A block relationship: its `Type` and its `Ids`. */
  datatype Relationship = Relationship(relType: Option<string>, ids: Option<seq<string>>)

  /** The members of a Textract block that the lookup reads; any of them may be absent. */
  datatype Block = Block(
    blockType: Option<string>,
    id: Option<string>,
    query: Option<QueryInfo>,
    relationships: Option<seq<Relationship>>,
    text: Option<string>)

  datatype AnalyzeDocumentOutput = AnalyzeDocumentOutput(blocks: Option<seq<Block>>)

  /** The Lambda's event; `alias` is `None` when the event's alias is not a string. */
  datatype Event = Event(textractResponse: AnalyzeDocumentOutput, alias: Option<string>)

  /** The ten errors the handler throws, in the order its guards check them. */
  datatype ExtractError =
    | AliasNotDefined
    | MissingBlocks
    | MissingQueryBlocks
    | MissingQueryResultBlocks
    | MissingQueryBlock
    | MissingQueryRelationships
    | MissingQueryBlockAnswer
    | MissingQueryBlockAnswerIds
    | MissingQueryResultBlock
    | MissingQueryResultBlockText

  /** The message of the thrown `Error`. */
  function Message(e: ExtractError): string
  {
    match e
    case AliasNotDefined => "Event alias is not defined"
    case MissingBlocks => "MissingBlocks"
    case MissingQueryBlocks => "MissingQueryBlocks"
    case MissingQueryResultBlocks => "MissingQueryResultBlocks"
    case MissingQueryBlock => "MissingQueryBlock"
    case MissingQueryRelationships => "MissingQueryRelationships"
    case MissingQueryBlockAnswer => "MissingQueryBlockAnswer"
    case MissingQueryBlockAnswerIds => "MissingQueryBlockAnswerIds"
    case MissingQueryResultBlock => "MissingQueryResultBlock"
    case MissingQueryResultBlockText => "MissingQueryResultBlockText"
  }

  predicate IsQuery(b: Block) { b.blockType == Some("QUERY") }

  predicate IsQueryResult(b: Block) { b.blockType == Some("QUERY_RESULT") }

  /** `BlockType === 'QUERY' && Query?.Alias === alias`: a block without `Query` never matches. */
  function AnswersAlias(alias: string): Block -> bool
  {
    (b: Block) => IsQuery(b) && b.query.Some? && b.query.value.alias == Some(alias)
  }

  predicate IsAnswer(r: Relationship) { r.relType == Some("ANSWER") }

  /** `Ids[0]`: `undefined` when the list is empty. */
  function FirstId(ids: seq<string>): Option<string>
  {
    if |ids| > 0 then Some(ids[0]) else None
  }

  /** `block.Id === id`; with `id` undefined this holds of the blocks that have no `Id`. */
  function HasId(id: Option<string>): Block -> bool
  {
    (b: Block) => b.id == id
  }

  /** `!Text` is false: the text is present and not empty. */
  predicate HasText(b: Block) { b.text.Some? && b.text.value != "" }

  function Handler(event: Event): (r: Result<string, ExtractError>)
    ensures r == Err(AliasNotDefined) <==> event.alias.None?
    ensures r == Err(MissingBlocks) <==>
              event.alias.Some? && event.textractResponse.blocks.None?
    ensures r == Err(MissingQueryBlocks) <==>
              && event.alias.Some? && event.textractResponse.blocks.Some?
              && forall i :: 0 <= i < |event.textractResponse.blocks.value| ==>
                   !IsQuery(event.textractResponse.blocks.value[i])
    ensures r == Err(MissingQueryResultBlocks) <==>
              && event.alias.Some? && event.textractResponse.blocks.Some?
              && (exists i :: 0 <= i < |event.textractResponse.blocks.value| &&
                   IsQuery(event.textractResponse.blocks.value[i]))
              && forall i :: 0 <= i < |event.textractResponse.blocks.value| ==>
                   !IsQueryResult(event.textractResponse.blocks.value[i])
    ensures r.Ok? ==> r.value != ""
  {
    if event.alias.None? then Err(AliasNotDefined)
    else
      var alias := event.alias.value;
      match event.textractResponse.blocks
      case None => Err(MissingBlocks)
      case Some(blocks) =>
        if FindFirst(blocks, IsQuery).None? then Err(MissingQueryBlocks)
        else if FindFirst(blocks, IsQueryResult).None? then Err(MissingQueryResultBlocks)
        else match FindFirst(blocks, AnswersAlias(alias))
          case None => Err(MissingQueryBlock)
          case Some(q) =>
            match blocks[q].relationships
            case None => Err(MissingQueryRelationships)
            case Some(rels) =>
              match FindFirst(rels, IsAnswer)
              case None => Err(MissingQueryBlockAnswer)
              case Some(k) =>
                match rels[k].ids
                case None => Err(MissingQueryBlockAnswerIds)
                case Some(ids) =>
                  match FindFirst(blocks, HasId(FirstId(ids)))
                  case None => Err(MissingQueryResultBlock)
                  case Some(res) =>
                    if HasText(blocks[res]) then Ok(blocks[res].text.value)
                    else Err(MissingQueryResultBlockText)
  }

  /** The state the handler is in once the first four guards have passed. */
  ghost predicate PassesTypeGuards(event: Event, alias: string, bs: seq<Block>)
  {
    && event.alias == Some(alias)
    && event.textractResponse.blocks == Some(bs)
    && (exists i :: 0 <= i < |bs| && IsQuery(bs[i]))
    && (exists i :: 0 <= i < |bs| && IsQueryResult(bs[i]))
  }

  /**
   * `q` is the chosen query block, `k` its first ANSWER relationship (which has `Ids`), and
   * `res` the first block of the whole list whose `Id` equals that relationship's first id.
   */
  ghost predicate AnswerPath(bs: seq<Block>, alias: string, q: nat, k: nat, res: nat)
  {
    && IsFirst(bs, AnswersAlias(alias), q)
    && bs[q].relationships.Some?
    && IsFirst(bs[q].relationships.value, IsAnswer, k)
    && bs[q].relationships.value[k].ids.Some?
    && IsFirst(bs, HasId(FirstId(bs[q].relationships.value[k].ids.value)), res)
  }

  /**
   * The last six guards and the result, each described by the positions the lookup visits:
   * only the first matching QUERY block, its first ANSWER relationship and that
   * relationship's first id are followed, and the result block's type is never checked.
   */
  lemma LookupOutcomes(event: Event, alias: string, bs: seq<Block>, t: string)
    requires PassesTypeGuards(event, alias, bs)
    ensures Handler(event) == Err(MissingQueryBlock) <==>
              forall i :: 0 <= i < |bs| ==> !AnswersAlias(alias)(bs[i])
    ensures Handler(event) == Err(MissingQueryRelationships) <==>
              exists q: nat :: IsFirst(bs, AnswersAlias(alias), q) && bs[q].relationships.None?
    ensures Handler(event) == Err(MissingQueryBlockAnswer) <==>
              exists q: nat :: IsFirst(bs, AnswersAlias(alias), q) && bs[q].relationships.Some? &&
                forall j :: 0 <= j < |bs[q].relationships.value| ==> !IsAnswer(bs[q].relationships.value[j])
    ensures Handler(event) == Err(MissingQueryBlockAnswerIds) <==>
              exists q: nat, k: nat :: IsFirst(bs, AnswersAlias(alias), q) && bs[q].relationships.Some? &&
                IsFirst(bs[q].relationships.value, IsAnswer, k) && bs[q].relationships.value[k].ids.None?
    ensures Handler(event) == Err(MissingQueryResultBlock) <==>
              exists q: nat, k: nat :: IsFirst(bs, AnswersAlias(alias), q) && bs[q].relationships.Some? &&
                IsFirst(bs[q].relationships.value, IsAnswer, k) && bs[q].relationships.value[k].ids.Some? &&
                forall j :: 0 <= j < |bs| ==> !HasId(FirstId(bs[q].relationships.value[k].ids.value))(bs[j])
    ensures Handler(event) == Err(MissingQueryResultBlockText) <==>
              exists q: nat, k: nat, res: nat :: AnswerPath(bs, alias, q, k, res) && !HasText(bs[res])
    ensures Handler(event) == Ok(t) <==>
              exists q: nat, k: nat, res: nat :: AnswerPath(bs, alias, q, k, res) && bs[res].text == Some(t) && t != ""
  {
    var qo := FindFirst(bs, AnswersAlias(alias));
    if qo.Some? {
      var q := qo.value;
      forall q' | IsFirst(bs, AnswersAlias(alias), q') ensures q' == q {
        FirstIsUnique(bs, AnswersAlias(alias), q, q');
      }
      if bs[q].relationships.Some? {
        var rels := bs[q].relationships.value;
        var ko := FindFirst(rels, IsAnswer);
        if ko.Some? {
          var k := ko.value;
          forall k' | IsFirst(rels, IsAnswer, k') ensures k' == k {
            FirstIsUnique(rels, IsAnswer, k, k');
          }
          if rels[k].ids.Some? {
            var p := HasId(FirstId(rels[k].ids.value));
            var ro := FindFirst(bs, p);
            if ro.Some? {
              var res := ro.value;
              forall res' | IsFirst(bs, p, res') ensures res' == res {
                FirstIsUnique(bs, p, res, res');
              }
              assert AnswerPath(bs, alias, q, k, res);
            }
          }
        }
      }
    }
  }
}
