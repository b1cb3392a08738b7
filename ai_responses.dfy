/** The `useAIResponses` hook: a local cache of the answers generated for one
    assignment, kept in step with the store. Generation asks OpenAI first and
    falls back to Gemini; every successful answer is saved and put at the head
    of the cache. Network calls are parameters: the provider's reply, the
    store's answer to a save, a fetch or a delete. */
module AIResponses {
  import opened Wrappers
  import opened JsArray

  datatype Provider = OpenAI | Gemini

  /** A row of the `ai_responses` table. */
  datatype AIResponse = AIResponse(
    id: string,
    assignmentId: string,
    prompt: string,
    response: string,
    createdAt: string,
    provider: Option<Provider>)

  /** What a failed call throws: the hook's own "no response" error, or an
      error raised by a provider or by the store, passed on unchanged. */
  datatype Failure = NoResponse(provider: Provider) | Thrown(message: string)

  function Message(f: Failure): string {
    match f
    case NoResponse(OpenAI) => "No response from OpenAI"
    case NoResponse(Gemini) => "No response from Gemini"
    case Thrown(m) => m
  }

  /** `saveResponse(prompt, response, provider)`: the inserted row, or the store's error. */
  type Save = (string, string, Provider) -> Result<AIResponse, Failure>

  /** What one generation call leaves behind: its result and the cache after it. */
  datatype Step = Step(outcome: Result<AIResponse, Failure>, responses: seq<AIResponse>)

  // ---------------------------------------------------------------- the list updates

  /** `generateWithOpenAI` / `generateWithGemini` (the two are the same code): the
      provider's reply (a missing reply is the empty string), then the save, then
      the saved row put in front of the previous cache. */
  function GenerateStep(provider: Provider, prev: seq<AIResponse>, prompt: string,
                        reply: Result<string, Failure>, save: Save): (st: Step)
    ensures st.outcome.Ok? <==>
      reply.Ok? && reply.value != "" && save(prompt, reply.value, provider).Ok?
    ensures st.outcome.Ok? ==>
      && st.outcome.value == save(prompt, reply.value, provider).value
      && st.responses == [st.outcome.value] + prev
    ensures st.outcome.Err? ==> st.responses == prev
    ensures reply == Ok("") ==> st.outcome == Err(NoResponse(provider))
    ensures reply.Err? ==> st.outcome == Err(reply.error)
    ensures reply.Ok? && reply.value != "" && save(prompt, reply.value, provider).Err? ==>
      st.outcome == Err(save(prompt, reply.value, provider).error)
  {
    match reply
    case Err(e) => Step(Err(e), prev)
    case Ok(content) =>
      if content == "" then Step(Err(NoResponse(provider)), prev)
      else
        match save(prompt, content, provider)
        case Err(e) => Step(Err(e), prev)
        case Ok(row) => Step(Ok(row), [row] + prev)
  }

  /** `generateResponse`: OpenAI's result when that call succeeds, otherwise
      whatever the Gemini call gives, from the unchanged cache. The cache gains at
      most one row, the one whose saving succeeded. */
  function GenerateResponseStep(prev: seq<AIResponse>, prompt: string,
                                openAIReply: Result<string, Failure>,
                                geminiReply: Result<string, Failure>, save: Save): (st: Step)
    ensures var first := GenerateStep(OpenAI, prev, prompt, openAIReply, save);
      && (first.outcome.Ok? ==> st == first)
      && (first.outcome.Err? ==> st == GenerateStep(Gemini, prev, prompt, geminiReply, save))
    ensures st.outcome.Ok? ==> st.responses == [st.outcome.value] + prev
    ensures st.outcome.Err? ==> st.responses == prev
  {
    var first := GenerateStep(OpenAI, prev, prompt, openAIReply, save);
    if first.outcome.Ok? then first
    else GenerateStep(Gemini, first.responses, prompt, geminiReply, save)
  }

  /** When OpenAI succeeds Gemini is not asked: its reply cannot change the result. */
  lemma GeminiUnusedAfterOpenAI(prev: seq<AIResponse>, prompt: string,
                                openAIReply: Result<string, Failure>,
                                g1: Result<string, Failure>, g2: Result<string, Failure>, save: Save)
    requires GenerateStep(OpenAI, prev, prompt, openAIReply, save).outcome.Ok?
    ensures GenerateResponseStep(prev, prompt, openAIReply, g1, save)
         == GenerateResponseStep(prev, prompt, openAIReply, g2, save)
  {
  }

  /** The rows a delete keeps: every row whose id differs. */
  function IdIsNot(id: string): AIResponse -> bool {
    (r: AIResponse) => r.id != id
  }

  /** The cache after a successful delete of `id`. */
  function WithoutId(rows: seq<AIResponse>, id: string): (r: seq<AIResponse>)
    ensures forall i | 0 <= i < |r| :: r[i].id != id
    ensures forall x :: multiset(r)[x] == if x.id != id then multiset(rows)[x] else 0
  {
    KeepMultiset(rows, IdIsNot(id));
    Keep(rows, IdIsNot(id))
  }

  /** Deleting keeps the other rows in their order. */
  lemma DeleteKeepsOrder(xs: seq<AIResponse>, ys: seq<AIResponse>, id: string)
    ensures WithoutId(xs + ys, id) == WithoutId(xs, id) + WithoutId(ys, id)
  {
    KeepAppend(xs, ys, IdIsNot(id));
  }

  /** Deleting an id that is not cached changes nothing. */
  lemma {:induction false} DeleteAbsentId(rows: seq<AIResponse>, id: string)
    requires forall i | 0 <= i < |rows| :: rows[i].id != id
    ensures WithoutId(rows, id) == rows
  {
    KeepAll(rows, IdIsNot(id));
  }

  /** A freshly generated row disappears again when its id is deleted, if no cached
      row shares that id. */
  lemma {:induction false} GenerateThenDelete(prev: seq<AIResponse>, row: AIResponse)
    requires forall i | 0 <= i < |prev| :: prev[i].id != row.id
    ensures WithoutId([row] + prev, row.id) == prev
  {
    DeleteKeepsOrder([row], prev, row.id);
    DeleteAbsentId(prev, row.id);
  }

  /** The store's answer to a fetch: the rows (possibly `null`), or an error. */
  type FetchReply = Result<Option<seq<AIResponse>>, Failure>

  // ---------------------------------------------------------------- the hook's state

  /** The two state cells of the hook. */
  class ResponseCache {
    var responses: seq<AIResponse>
    var loading: bool

    constructor ()
      ensures responses == [] && loading
    {
      responses := [];
      loading := true;
    }

    /** `fetchResponses`: replace the cache with the fetched rows (`data || []`);
        keep it on error; `loading` ends false either way. */
    method FetchResponses(reply: FetchReply)
      modifies this
      ensures !loading
      ensures reply.Ok? ==> responses == reply.value.GetOr([])
      ensures reply.Err? ==> responses == old(responses)
    {
      if reply.Ok? {
        responses := reply.value.GetOr([]);
      }
      loading := false;
    }

    /** `generateWithOpenAI` and `generateWithGemini`. */
    method GenerateWith(provider: Provider, prompt: string, reply: Result<string, Failure>, save: Save)
      returns (outcome: Result<AIResponse, Failure>)
      modifies this
      ensures Step(outcome, responses) == GenerateStep(provider, old(responses), prompt, reply, save)
      ensures loading == old(loading)
    {
      if reply.Err? {
        return Err(reply.error);
      }
      var content := reply.value;
      if content == "" {
        return Err(NoResponse(provider));
      }
      var saved := save(prompt, content, provider);
      if saved.Err? {
        return Err(saved.error);
      }
      responses := [saved.value] + responses;
      return Ok(saved.value);
    }

    /** `generateResponse`: try OpenAI; on any failure try Gemini instead. */
    method GenerateResponse(prompt: string, openAIReply: Result<string, Failure>,
                            geminiReply: Result<string, Failure>, save: Save)
      returns (outcome: Result<AIResponse, Failure>)
      modifies this
      ensures Step(outcome, responses) ==
        GenerateResponseStep(old(responses), prompt, openAIReply, geminiReply, save)
      ensures loading == old(loading)
    {
      outcome := GenerateWith(OpenAI, prompt, openAIReply, save);
      if outcome.Err? {
        outcome := GenerateWith(Gemini, prompt, geminiReply, save);
      }
    }

    /** `deleteResponse`: on the store's success drop every row with that id and
        return true; on its error rethrow and keep the cache. */
    method DeleteResponse(id: string, reply: Result<(), Failure>) returns (outcome: Result<bool, Failure>)
      modifies this
      ensures reply.Ok? ==> outcome == Ok(true) && responses == WithoutId(old(responses), id)
      ensures reply.Err? ==> outcome == Err(reply.error) && responses == old(responses)
      ensures loading == old(loading)
    {
      if reply.Err? {
        return Err(reply.error);
      }
      responses := WithoutId(responses, id);
      return Ok(true);
    }
  }
}
