/** The Etherscan source-code lookup: the query it sends and how the decoded
    JSON answer becomes Solidity source or the "not found" sentinel. The HTTP
    GET itself is a parameter: a function from request to decoded response. */
module Explorer {
  import opened Wrappers
  import opened Text
  import Identifier

  const BaseUrl: string := "https://api-sepolia.etherscan.io/api"
  const DefaultNetwork: string := "sepolia"
  const SentinelPrefix: string := "// No verified source code found for address "
  const SentinelInfix: string := " on "

  /** Query parameters in dictionary order; a value is None when the Python value is None
      (an unset ETHERSCAN_API_KEY). */
  type Params = seq<(string, Option<string>)>

  datatype LookupRequest = LookupRequest(url: string, params: Params)

  /** One element of the JSON "result" array; only "SourceCode" is read. */
  datatype ResultEntry = ResultEntry(sourceCode: string)

  /** The decoded JSON body: "status" and the "result" array. */
  datatype Response = Response(status: string, result: seq<ResultEntry>)

  /** `data["result"][0]` raises IndexError on an empty array. */
  datatype LookupError = ResultIndexError

  /** The value stored under key `k` (the first pair with that key), None when absent. */
  function Get(ps: Params, k: string): Option<Option<string>>
  {
    if ps == [] then None else if ps[0].0 == k then Some(ps[0].1) else Get(ps[1..], k)
  }

  function Keys(ps: Params): seq<string>
  {
    seq(|ps|, i requires 0 <= i < |ps| => ps[i].0)
  }

  /** A key stored at index `i` and nowhere before is found with the value stored there. */
  lemma {:induction false} GetFirst(ps: Params, k: string, i: nat)
    requires i < |ps| && ps[i].0 == k
    requires forall j :: 0 <= j < i ==> ps[j].0 != k
    ensures Get(ps, k) == Some(ps[i].1)
  {
    if i > 0 {
      GetFirst(ps[1..], k, i - 1);
    }
  }

  /** A key stored nowhere is not found. */
  lemma {:induction false} GetAbsent(ps: Params, k: string)
    requires k !in Keys(ps)
    ensures Get(ps, k) == None
  {
    if ps != [] {
      assert Keys(ps[1..]) == Keys(ps)[1..];
      assert Keys(ps)[0] == ps[0].0;
      GetAbsent(ps[1..], k);
    }
  }

  /** The request `requests.get(base_url, params=params)` is given. */
  function BuildRequest(address: string, apiKey: Option<string>): (r: LookupRequest)
    ensures r.url == BaseUrl
    ensures Keys(r.params) == ["module", "action", "address", "apikey"]
    ensures Get(r.params, "module") == Some(Some("contract"))
    ensures Get(r.params, "action") == Some(Some("getsourcecode"))
    ensures Get(r.params, "address") == Some(Some(address))
    ensures Get(r.params, "apikey") == Some(apiKey)
    ensures forall k :: k !in Keys(r.params) ==> Get(r.params, k) == None
  {
    var ps := [("module", Some("contract")), ("action", Some("getsourcecode")),
               ("address", Some(address)), ("apikey", apiKey)];
    GetFirst(ps, "address", 2);
    GetFirst(ps, "apikey", 3);
    forall k | k !in Keys(ps) ensures Get(ps, k) == None {
      GetAbsent(ps, k);
    }
    LookupRequest(BaseUrl, ps)
  }

  /** The placeholder returned when the explorer has no verified source. */
  function Sentinel(address: string, network: string): (s: string)
    ensures StartsWith(s, SentinelPrefix)
    ensures OccursAt(s, address, |SentinelPrefix|)
    ensures OccursAt(s, SentinelInfix, |SentinelPrefix| + |address|)
    ensures OccursAt(s, network, |SentinelPrefix| + |address| + |SentinelInfix|)
    ensures |s| == |SentinelPrefix| + |address| + |SentinelInfix| + |network|
  {
    var s := SentinelPrefix + address + SentinelInfix + network;
    ConcatPieces(SentinelPrefix + address, SentinelInfix, network);
    ConcatPieces(SentinelPrefix, address, SentinelInfix);
    OccursShift(SentinelPrefix + address + SentinelInfix, address, |SentinelPrefix|, [], network);
    assert [] + (SentinelPrefix + address + SentinelInfix) + network == s;
    s
  }

  /** Reads the address and network back from a sentinel whose address has the
      address length, as every address sent to the explorer has. */
  function ParseSentinel(s: string): Option<(string, string)>
  {
    var n := |SentinelPrefix|;
    var m := n + Identifier.AddressLength;
    if StartsWith(s, SentinelPrefix) && m + |SentinelInfix| <= |s| && s[m..m + |SentinelInfix|] == SentinelInfix
    then Some((s[n..m], s[m + |SentinelInfix|..]))
    else None
  }

  /** The sentinel loses nothing: its address and network can be read back. */
  lemma SentinelRoundTrip(address: string, network: string)
    requires |address| == Identifier.AddressLength
    ensures ParseSentinel(Sentinel(address, network)) == Some((address, network))
  {
  }

  /** Every string that parses as a sentinel is the sentinel of what it parses to. */
  lemma ParseSentinelSound(s: string, address: string, network: string)
    requires ParseSentinel(s) == Some((address, network))
    ensures |address| == Identifier.AddressLength
    ensures Sentinel(address, network) == s
  {
  }

  /** Lines 20-23: status "1" with a non-empty first SourceCode gives that code verbatim;
      `result[0]` is read only when the status is "1"; everything else is the sentinel. */
  function Interpret(address: string, network: string, data: Response): (r: Result<string, LookupError>)
    ensures r.Failure? <==> data.status == "1" && data.result == []
    ensures data.status == "1" && data.result != [] && data.result[0].sourceCode != ""
      ==> r == Success(data.result[0].sourceCode)
    ensures data.status != "1" || (data.result != [] && data.result[0].sourceCode == "")
      ==> r == Success(Sentinel(address, network))
  {
    if data.status == "1" then
      if |data.result| == 0 then Failure(ResultIndexError)
      else if data.result[0].sourceCode != "" then Success(data.result[0].sourceCode)
      else Success(Sentinel(address, network))
    else Success(Sentinel(address, network))
  }

  /** `fetch_contract_source_from_etherscan(address, network)`, with the GET as `explorer`:
      exactly one request, built from the address and the credential, and its answer interpreted. */
  function FetchSource(address: string, network: string, apiKey: Option<string>,
                       explorer: LookupRequest -> Response): (r: Result<string, LookupError>)
    ensures r == Interpret(address, network, explorer(BuildRequest(address, apiKey)))
    ensures var resp := explorer(BuildRequest(address, apiKey));
      && (r.Failure? <==> resp.status == "1" && resp.result == [])
      && ((resp.status == "1" && resp.result != [] && resp.result[0].sourceCode != "")
            ==> r == Success(resp.result[0].sourceCode))
      && ((resp.status != "1" || (resp.result != [] && resp.result[0].sourceCode == ""))
            ==> r == Success(Sentinel(address, network)))
  {
    Interpret(address, network, explorer(BuildRequest(address, apiKey)))
  }

  /** The lookup consults the explorer about its one request and nothing else. */
  lemma FetchSourceDependsOnlyOnRequest(address: string, network: string, apiKey: Option<string>,
                                        e1: LookupRequest -> Response, e2: LookupRequest -> Response)
    requires e1(BuildRequest(address, apiKey)) == e2(BuildRequest(address, apiKey))
    ensures FetchSource(address, network, apiKey, e1) == FetchSource(address, network, apiKey, e2)
  {
  }
}
