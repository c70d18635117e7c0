/** The two actions of the tool: "Generate Solidity" (lines 51-65) and "Explain
    Contract" (lines 74-84, with `explain_contract` at lines 25-41). The local
    model runtime is a parameter `engine`: a function from the command line and the
    text written to its standard input to the finished process. */
module App {
  import opened Wrappers
  import opened Text
  import opened Identifier
  import Explorer
  import Prompts

  /** The command both actions run: `ollama run gemma3:4b`. */
  const EngineCommand: seq<string> := ["ollama", "run", "gemma3:4b"]

  /** One `subprocess.run` call: the argument vector and the text piped to standard input. */
  datatype EngineCall = EngineCall(argv: seq<string>, input: string)

  /** The finished process, with its captured output streams. */
  datatype CompletedProcess = CompletedProcess(returncode: int, stdout: string, stderr: string)

  /** What escapes an action: the IndexError of an empty explorer result, or the
      CalledProcessError `check=True` raises for a non-zero exit status. */
  datatype Fault = LookupFault(error: Explorer.LookupError) | InferenceEngineError(returncode: int, stderr: string)

  /** `subprocess.run(EngineCommand, input=prompt, capture_output=True, text=True, check=True).stdout`. */
  function RunEngine(engine: EngineCall -> CompletedProcess, prompt: string): (r: Result<string, Fault>)
    ensures var done := engine(EngineCall(EngineCommand, prompt));
      && (r.Success? <==> done.returncode == 0)
      && (r.Success? ==> r.value == done.stdout)
      && (r.Failure? ==> r.error == InferenceEngineError(done.returncode, done.stderr))
  {
    var done := engine(EngineCall(EngineCommand, prompt));
    if done.returncode == 0 then Success(done.stdout)
    else Failure(InferenceEngineError(done.returncode, done.stderr))
  }

  /** `explain_contract(solidity_code)`: the engine answers the explain prompt. */
  function ExplainContract(engine: EngineCall -> CompletedProcess, code: string): (r: Result<string, Fault>)
    ensures var done := engine(EngineCall(EngineCommand, Prompts.ExplainPrompt(code)));
      && (r.Success? <==> done.returncode == 0)
      && (r.Success? ==> r.value == done.stdout)
      && (r.Failure? ==> r.error == InferenceEngineError(done.returncode, done.stderr))
  {
    RunEngine(engine, Prompts.ExplainPrompt(code))
  }

  /** Lines 75-79: an address-shaped input is looked up on the default network;
      any other input is taken as the Solidity source itself. */
  function Resolve(input: string, apiKey: Option<string>,
                   explorer: Explorer.LookupRequest -> Explorer.Response): (r: Result<string, Fault>)
    ensures !IsAddressShaped(input) ==> r == Success(input)
    ensures IsAddressShaped(input) ==>
      var resp := explorer(Explorer.BuildRequest(input, apiKey));
      && (r.Failure? <==> resp.status == "1" && resp.result == [])
      && (r.Failure? ==> r.error == LookupFault(Explorer.ResultIndexError))
      && ((resp.status == "1" && resp.result != [] && resp.result[0].sourceCode != "")
            ==> r == Success(resp.result[0].sourceCode))
      && ((resp.status != "1" || (resp.result != [] && resp.result[0].sourceCode == ""))
            ==> r == Success(Explorer.Sentinel(input, Explorer.DefaultNetwork)))
  {
    match Classify(input)
    case Address(a) =>
      (match Explorer.FetchSource(a, Explorer.DefaultNetwork, apiKey, explorer)
       case Success(code) => Success(code)
       case Failure(e) => Failure(LookupFault(e)))
    case RawSource(s) => Success(s)
  }

  /** The explorer requests the "Explain Contract" action sends for `input`. */
  function LookupsIssued(input: string, apiKey: Option<string>): (qs: seq<Explorer.LookupRequest>)
    ensures |qs| == if IsAddressShaped(input) then 1 else 0
    ensures forall q :: q in qs ==> Explorer.Get(q.params, "address") == Some(Some(input))
  {
    if IsAddressShaped(input) then [Explorer.BuildRequest(input, apiKey)] else []
  }

  /** The "Explain Contract" action: resolve, then explain. It runs on every input,
      the empty one included; a lookup fault stops it before the engine runs. */
  function ExplainAction(input: string, apiKey: Option<string>,
                         explorer: Explorer.LookupRequest -> Explorer.Response,
                         engine: EngineCall -> CompletedProcess): (r: Result<string, Fault>)
    ensures var resolved := Resolve(input, apiKey, explorer);
      && (resolved.Failure? ==> r == Failure(resolved.error))
      && (resolved.Success? ==>
            var done := engine(EngineCall(EngineCommand, Prompts.ExplainPrompt(resolved.value)));
            && (r.Success? <==> done.returncode == 0)
            && (r.Success? ==> r.value == done.stdout)
            && (r.Failure? ==> r.error == InferenceEngineError(done.returncode, done.stderr)))
  {
    match Resolve(input, apiKey, explorer)
    case Success(code) => ExplainContract(engine, code)
    case Failure(e) => Failure(e)
  }

  /** The "Generate Solidity" action: nothing happens for an empty instruction;
      otherwise the engine answers the generate prompt. */
  function GenerateAction(engine: EngineCall -> CompletedProcess, nlInput: string): (r: Option<Result<string, Fault>>)
    ensures r.None? <==> nlInput == ""
    ensures r.Some? ==>
      var done := engine(EngineCall(EngineCommand, Prompts.GeneratePrompt(nlInput)));
      && (r.value.Success? <==> done.returncode == 0)
      && (r.value.Success? ==> r.value.value == done.stdout)
      && (r.value.Failure? ==> r.value.error == InferenceEngineError(done.returncode, done.stderr))
  {
    if nlInput == "" then None else Some(RunEngine(engine, Prompts.GeneratePrompt(nlInput)))
  }

  /** Raw source (every input that is not address-shaped, the empty one too) reaches the
      engine verbatim inside the explain prompt, and the explorer is never consulted. */
  lemma ExplainRawSource(input: string, apiKey: Option<string>,
                         explorer: Explorer.LookupRequest -> Explorer.Response,
                         engine: EngineCall -> CompletedProcess)
    requires !IsAddressShaped(input)
    ensures LookupsIssued(input, apiKey) == []
    ensures ExplainAction(input, apiKey, explorer, engine) == ExplainContract(engine, input)
    ensures Prompts.ExplainedCode(Prompts.ExplainPrompt(input)) == Some(input)
  {
  }

  /** Verified source found for an address reaches the engine verbatim. */
  lemma ExplainVerifiedSource(input: string, apiKey: Option<string>,
                              explorer: Explorer.LookupRequest -> Explorer.Response,
                              engine: EngineCall -> CompletedProcess)
    requires IsAddressShaped(input)
    requires var resp := explorer(Explorer.BuildRequest(input, apiKey));
      resp.status == "1" && resp.result != [] && resp.result[0].sourceCode != ""
    ensures var code := explorer(Explorer.BuildRequest(input, apiKey)).result[0].sourceCode;
      && ExplainAction(input, apiKey, explorer, engine) == ExplainContract(engine, code)
      && OccursAt(Prompts.ExplainPrompt(code), code, |Prompts.ExplainPrefix|)
  {
  }

  /** An address without verified source is explained from the sentinel, which names
      the address and the default network, and from which both can be read back. */
  lemma ExplainUnverifiedAddress(input: string, apiKey: Option<string>,
                                 explorer: Explorer.LookupRequest -> Explorer.Response,
                                 engine: EngineCall -> CompletedProcess)
    requires IsAddressShaped(input)
    requires var resp := explorer(Explorer.BuildRequest(input, apiKey));
      resp.status != "1" || (resp.result != [] && resp.result[0].sourceCode == "")
    ensures var sentinel := Explorer.Sentinel(input, Explorer.DefaultNetwork);
      && ExplainAction(input, apiKey, explorer, engine) == ExplainContract(engine, sentinel)
      && Explorer.ParseSentinel(sentinel) == Some((input, "sepolia"))
  {
  }

  /** The action depends on the explorer only through the requests it issues:
      two explorers that answer those alike give the same outcome. */
  lemma ExplainConsultsOnlyIssuedLookups(input: string, apiKey: Option<string>,
                                         e1: Explorer.LookupRequest -> Explorer.Response,
                                         e2: Explorer.LookupRequest -> Explorer.Response,
                                         engine: EngineCall -> CompletedProcess)
    requires forall q :: q in LookupsIssued(input, apiKey) ==> e1(q) == e2(q)
    ensures ExplainAction(input, apiKey, e1, engine) == ExplainAction(input, apiKey, e2, engine)
  {
  }
}
