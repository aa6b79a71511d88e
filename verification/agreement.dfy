/** Where the two routers do the same thing. They differ in:
    - the session-id check: Express also refuses an empty id;
    - the missing-file check, which only Express has;
    - the upload reply: Express reports a missing chunk number as "0" and
      adds the session's counters;
    - an empty summary type: Express turns it into "medium" and answers
      that, while tRPC answers (and stores) the empty string;
    - what a summary stores: only tRPC keeps it;
    - the "detailed" template and the ru/id instructions;
    - what translation works on: the request's text in Express, the
      session's transcript in tRPC. */
module Agreement {
  import opened Options
  import opened Providers
  import opened Prompts
  import opened Sessions
  import ExpressRoutes
  import RpcRouter

  /** For a non-empty session id and an uploaded file, the two routers do
      the same thing to the store and ask Deepgram the same; they answer the
      same fragment and the same complete text. */
  lemma RoutersAgreeOnUpload(store: Store, id: string, chunkNumber: string, byteLength: nat,
                             apiKey: string, reply: ListenReply)
    requires id != ""
    ensures var e := ExpressRoutes.UploadChunk(store, id, chunkNumber, Some(byteLength), apiKey, reply);
      var t := RpcRouter.UploadChunk(store, id, chunkNumber, byteLength, apiKey, reply);
      && e.store == t.store && e.calls == t.calls && e.result.Ok? == t.result.Ok?
      && (e.result.Fail? ==> e.result.error == t.result.error)
      && (e.result.Ok? ==>
            && e.result.value.transcription == t.result.value.transcription
            && e.result.value.completeText == t.result.value.completeText
            && (chunkNumber != "" ==> e.result.value.chunkNumber == t.result.value.chunkNumber))
  {
  }

  /** For a non-empty session id, stopping reports the same in both routers. */
  lemma RoutersAgreeOnStop(store: Store, id: string)
    requires id != ""
    ensures var e := ExpressRoutes.StopSession(store, id);
      var t := RpcRouter.StopSession(store, id);
      && e.store == t.store && e.result.Ok? == t.result.Ok?
      && (e.result.Ok? ==>
            && e.result.value.completeText == t.result.value.completeText
            && e.result.value.deepgramCalls == t.result.value.deepgramCalls
            && e.result.value.totalSize == t.result.value.totalSize)
  {
  }

  /** For a non-empty session id, a named summary type other than
      "detailed" and any language other than Russian and Indonesian, the
      two routers send the LLM the same prompt and answer the same summary;
      only the tRPC router keeps it. */
  lemma RoutersAgreeOnSummary(store: Store, id: string, summaryType: string, language: string,
                              completion: Option<string>)
    requires id != ""
    requires summaryType != "" && summaryType != "detailed"
    requires language != "ru" && language != "id"
    ensures var e := ExpressRoutes.GenerateSummary(store, id, summaryType, language, completion);
      var t := RpcRouter.GenerateSummary(store, id, summaryType, language, completion);
      && e.calls == t.calls
      && e.result.Ok? == t.result.Ok?
      && (e.result.Fail? ==> e.result.error == t.result.error)
      && (e.result.Ok? ==>
            && e.result.value.summary == t.result.value.summary
            && e.result.value.summaryType == t.result.value.summaryType
            && e.result.value.originalText == t.result.value.originalText)
      && e.store == store
  {
    if id in store {
      var transcript := store[id].transcript;
      var named := ExpressRoutes.OrDefault(language, "en");
      assert SummaryPrompt(Express, summaryType, transcript, named)
          == SummaryPrompt(Rpc, summaryType, transcript, language) by {
        SummaryPromptRoutersAgree(summaryType, transcript, named);
        EmptyChoicesFallBack(Rpc, summaryType, transcript, language);
      }
    }
  }
}
