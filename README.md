# Solidity LLM Tools: a Dafny model of the decision and prompt logic

The tool is one Streamlit script with two actions. "Generate Solidity" sends
a natural-language instruction to a local `ollama` model. "Explain Contract"
takes either a contract address or raw Solidity source. For an address it gets
the verified source from the Etherscan API first. It then asks the model to
explain the code. This project models the pure logic between the
UI and the two external services:

- `Identifier`: how the input is classified. It is an address exactly when it
  starts with the case-sensitive `"0x"` and is 42 characters long. Anything
  else is raw source and is kept verbatim.
- `Explorer`: the lookup query parameters, the way the decoded response is
  interpreted, and the "not found" sentinel, which can be parsed back.
- `Prompts`: the explain and generate templates. Each is a fixed prefix, the
  user's text verbatim and a fixed suffix. The text can be read back from
  the prompt, and the numbered points or output markers appear in order.
- `App`: the two actions. They take the explorer (a function from request
  to decoded response) and the engine (a function from command and stdin text
  to the finished process) as parameters.
- `Text` and `Wrappers`: string facts (prefix, substring occurrence,
  occurrence in order) and `Option`/`Result`.

Every operation is a function, so equal inputs and equal explorer and engine
answers always give equal results. Nothing is cached or mutated.

The prompts follow the source's string literals exactly: the explain prompt
ends with a line break after "3. Security concerns."; each line after the
instruction in the generate prompt keeps the 20 spaces of indentation the
f-string has; the generate prompt has no final line break.

The script has CRLF line endings, but Python normalises source line breaks,
so the prompts contain `"\n"`. The credential comes from `os.getenv`, so it is
an `Option<string>`: when unset, the `apikey` value is None.

## Model

| member | source | states |
|---|---|---|
| `Identifier.Classify` | app.py:75-79 | an input is an address exactly when it has 42 characters and begins with '0' then 'x'; either way the classified identifier keeps the input's text unchanged |
| `Identifier.NotAddressPassesThrough` | app.py:75-79 | every string of the wrong length or without the "0x" prefix (the empty string too) is raw source, verbatim |
| `Identifier.UpperCasePrefixIsSource` | app.py:75 | the prefix test is case-sensitive: "0X…" is raw source |
| `Explorer.BuildRequest` | app.py:11-17 | the lookup goes to the Sepolia API URL with exactly the keys module, action, address, apikey in that order, module=contract, action=getsourcecode, address verbatim, apikey the configured credential (None when unset); no other key is present |
| `Explorer.Interpret` | app.py:20-23 | status "1" with an empty result array raises the IndexError; status "1" with non-empty first SourceCode returns that SourceCode verbatim; every other response returns the sentinel for the address and network |
| `Explorer.Sentinel` | app.py:23 | the sentinel starts with "// No verified source code found for address ", then has the address, " on " and the network at the stated positions, and nothing else |
| `Explorer.SentinelRoundTrip` | app.py:23 | for an address of address length, the address and network can be parsed back out of the sentinel |
| `Explorer.ParseSentinelSound` | app.py:23 | any string that parses as a sentinel is exactly the sentinel of the parsed address and network |
| `Explorer.FetchSource` | app.py:9-23 | one request built from the address and credential, whose answer is interpreted as `Explorer.Interpret` states: it fails exactly on a status-"1" empty result, returns a non-empty first SourceCode of a status-"1" answer verbatim, and returns the sentinel for the address and network otherwise |
| `Explorer.FetchSourceDependsOnlyOnRequest` | app.py:18-19 | the result depends on the explorer only through its answer to that one request |
| `Prompts.ExplainPrompt` | app.py:26-33 | the prompt starts with "Analyze the following smart contract code:\n", holds the code verbatim right after it, and the fixed suffix right after the code, and nothing else |
| `Prompts.ExplainPromptRoundTrip` | app.py:26-33 | the code is read back from its prompt, and any string that reads back as a code is that code's prompt |
| `Prompts.ExplainPromptInjective` | app.py:26-33 | distinct codes give distinct explain prompts |
| `Prompts.ExplainPointsInOrder` | app.py:28-32 | after the code come the heading and the three numbered points in order, without overlap, and the prompt ends with the third point |
| `Prompts.GeneratePrompt` | app.py:56-60 | the prompt starts with "Instruction: " followed by the instruction verbatim, with the fixed suffix right after it, and nothing else |
| `Prompts.GeneratePromptRoundTrip` | app.py:56-60 | the instruction is read back from its prompt, and any string that reads back is that instruction's prompt |
| `Prompts.GenerateLayoutInOrder` | app.py:56-60 | after the instruction come line break and indentation, "Output format:", and each marker on its own indented line, in order, and the prompt ends with "[Security Tradeoffs]" |
| `Prompts.GenerateMarkersInOrder` | app.py:57-60 | "Output format:", "[Solidity Code]", "[Explanation]", "[Security Tradeoffs]" occur in this order after the instruction |
| `App.RunEngine` | app.py:34-41 | the engine is run once with `ollama run gemma3:4b` and the prompt on stdin; exit status 0 gives its stdout unchanged, any other status the inference-engine error with that status and stderr, and no output |
| `App.ExplainContract` | app.py:25-41 | the engine receives the explain prompt of the code; its stdout is returned unchanged on success, and a failing exit gives the inference-engine error |
| `App.Resolve` | app.py:75-79 | non-address input is returned unchanged; an address is looked up on the default network, giving the IndexError fault exactly for a status-"1" empty result, the first SourceCode verbatim when the status is "1" and it is non-empty, and the sentinel for the address and "sepolia" otherwise |
| `App.LookupsIssued` | app.py:75-77 | exactly one lookup for an address-shaped input, none otherwise, and every lookup carries the input as its address |
| `App.ExplainAction` | app.py:74-84 | a lookup fault stops the action before the engine runs; otherwise the engine receives the explain prompt of the resolved source, its stdout is the result exactly when it exits with status 0, and a non-zero exit gives the inference-engine error with that status and stderr |
| `App.GenerateAction` | app.py:51-65 | nothing runs for an empty instruction; otherwise the engine receives the generate prompt, stdout is returned unchanged on exit status 0, and the inference-engine error is returned otherwise |
| `App.ExplainRawSource` | app.py:74-82 | raw source, the empty input included, triggers no lookup and reaches the engine verbatim inside the explain prompt, from which it can be read back |
| `App.ExplainVerifiedSource` | app.py:75-82 | verified source found for an address is explained verbatim |
| `App.ExplainUnverifiedAddress` | app.py:75-82 | an address without verified source is explained from the sentinel, which names that address and "sepolia" and parses back to them |
| `App.ExplainConsultsOnlyIssuedLookups` | app.py:75-79 | two explorers that answer the issued lookups alike lead to the same outcome of the action |

## Left out

- The Streamlit UI (title, tabs, text areas, buttons, spinners, `st.code`, `st.markdown`, `st.text`): presentation only. The actions are modelled as if their button has been pressed. The branch conditions modelled are the address test (line 75) and the empty-instruction guard (line 52).
- The HTTP GET and JSON decoding (`requests.get`, `response.json()`): network I/O. The decoded body is an input, with `status` a string and `result` a sequence of entries each carrying a `SourceCode` string. These failures are not caught in the source and are not modelled:
  - transport failures and non-JSON bodies;
  - a body without a "status" key, which raises KeyError whatever else it holds;
  - with status "1": a body without a "result" key (KeyError), a first entry that is not an object (TypeError) or has no "SourceCode" key (KeyError), an empty string as `result` (IndexError), or any other non-list `result`, a non-empty string included (a TypeError or KeyError).

  With any other status, `result` is never read, so any shape of it gives the sentinel. A `SourceCode` that is not a string raises nothing at line 20: a falsy one (null, 0, an empty list or object) gives the sentinel, and a truthy one is returned as it is. The model covers only string SourceCode, where falsy means empty.
- How `requests` encodes the parameters into a URL (including that it drops a None value): library behaviour. The model stops at the parameter dictionary.
- The `ollama` process: a foreign process. Launch failures (`ollama` not installed), blocking without a timeout, and text decoding of the streams are not modelled. Only the exit status and the captured streams are.
- Reading `ETHERSCAN_API_KEY` from the environment: it is the `apiKey` parameter.
- The base URL is always the Sepolia endpoint whatever `network` is. The `network` argument only shows up in the sentinel text, and the app never passes anything but the default `"sepolia"`.
- The two prompt templates are each written as named constant pieces and not restated as one literal string, because comparing long literal strings exceeds the verifier's resource limit. The pieces concatenate to the source's f-string text.
