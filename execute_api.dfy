/** The `POST /api/code/execute` handler: method check, required fields,
    the `stdin` default, and the mapping of the executor's outcome onto an
    HTTP status. */
module ExecuteApi {
  import opened Text
  import opened LanguageConfigs
  import opened DockerExecution
  import Store

  /** The request body; a field that is absent or null is `None`. */
  datatype ExecutionRequest = ExecutionRequest(code: Option<string>, language: Option<string>, stdin: Option<string>)

  /** The JSON reply: the executor's result, or an error message. */
  datatype Reply = Result(output: string) | Error(error: string)

  datatype Response = Response(status: int, reply: Reply)

  /** The response together with what the executor asked of the host. */
  datatype Handled = Handled(response: Response, effects: seq<Effect>)

  const MethodNotAllowed := "Method not allowed"
  const FieldsRequired := "Code and language are required."

  function Handler(verb: string, body: ExecutionRequest, cwd: string, sessionId: string, w: World): (h: Handled)
    ensures h.response.status in {200, 400, 405}
    ensures h.response.status == 200 <==> h.response.reply.Result?
  {
    if verb != "POST" then
      Handled(Response(405, Error(MethodNotAllowed)), [])
    else if !Store.Present(body.code) || !Store.Present(body.language) then
      Handled(Response(400, Error(FieldsRequired)), [])
    else
      var stdin := if body.stdin.Some? then body.stdin.value else "";
      var run := Execution(cwd, body.language.value, body.code.value, Some(stdin), sessionId, w);
      match run.outcome
      case Output(output) => Handled(Response(200, Result(output)), run.effects)
      case Thrown(message) => Handled(Response(400, Error(message)), run.effects)
  }

  /** Only POST reaches the executor; anything else is 405 with no effect. */
  lemma OnlyPostExecutes(verb: string, body: ExecutionRequest, cwd: string, sessionId: string, w: World)
    requires verb != "POST"
    ensures Handler(verb, body, cwd, sessionId, w) == Handled(Response(405, Error(MethodNotAllowed)), [])
  {
  }

  /** A missing or empty `code` or `language` is 400 with no effect. */
  lemma FieldsRequiredBeforeExecution(body: ExecutionRequest, cwd: string, sessionId: string, w: World)
    requires !Store.Present(body.code) || !Store.Present(body.language)
    ensures Handler("POST", body, cwd, sessionId, w) == Handled(Response(400, Error(FieldsRequired)), [])
  {
  }

  /** An absent `stdin` behaves as the empty string. */
  lemma StdinDefaultsToEmpty(verb: string, body: ExecutionRequest, cwd: string, sessionId: string, w: World)
    ensures Handler(verb, body.(stdin := None), cwd, sessionId, w)
            == Handler(verb, body.(stdin := Some("")), cwd, sessionId, w)
  {
  }

  /** Whatever the executor throws (unknown language, a failed write, a
      non-zero exit, a spawn error) becomes 400 with exactly its message;
      what it returns becomes 200 with the result unchanged. */
  lemma OutcomeBecomesStatus(body: ExecutionRequest, cwd: string, sessionId: string, w: World)
    requires Store.Present(body.code) && Store.Present(body.language)
    ensures var run := Execution(cwd, body.language.value, body.code.value, Some(InputOf(body.stdin)), sessionId, w);
            var h := Handler("POST", body, cwd, sessionId, w);
            && h.effects == run.effects
            && (run.outcome.Output? ==> h.response == Response(200, Result(run.outcome.output)))
            && (run.outcome.Thrown? ==> h.response == Response(400, Error(run.outcome.message)))
  {
  }

  /** 200 is answered exactly for a POST with code and a known language
      whose directory and files could be created and whose container exited
      with status 0; the reply is the trimmed stdout. */
  lemma OkIff(verb: string, body: ExecutionRequest, cwd: string, sessionId: string, w: World)
    ensures var h := Handler(verb, body, cwd, sessionId, w);
            h.response.status == 200
            <==> && verb == "POST" && Store.Present(body.code) && Store.Present(body.language)
                 && body.language.value in Registry && w.mkdirError.None?
                 && WritesSucceed(body.language.value, Registry[body.language.value], InputOf(body.stdin), w)
                 && w.process.Closed? && w.process.code == Some(0)
    ensures var h := Handler(verb, body, cwd, sessionId, w);
            h.response.status == 200 ==> h.response.reply == Result(Trim(w.process.stdout))
  {
    if verb == "POST" && Store.Present(body.code) && Store.Present(body.language) {
      SucceedsIff(cwd, body.language.value, body.code.value, Some(InputOf(body.stdin)), sessionId, w);
    }
  }

  /** An unknown language is answered 400 with the executor's message, and
      nothing is created on the host. */
  lemma UnknownLanguageIs400(body: ExecutionRequest, cwd: string, sessionId: string, w: World)
    requires Store.Present(body.code) && Store.Present(body.language) && body.language.value !in Registry
    ensures Handler("POST", body, cwd, sessionId, w)
            == Handled(Response(400, Error(UnsupportedLanguage + body.language.value)), [])
  {
    UnsupportedLanguageCreatesNothing(cwd, body.language.value, body.code.value, Some(InputOf(body.stdin)), sessionId, w);
  }
}
