/**
 * The market data collector: a bounded-retry fetch per endpoint, the
 * extraction of a `{symbol, price}` record from the decoded body, and the
 * loop that gathers those records into a dict keyed by requested symbol.
 *
 * The HTTP client is a `Network` object: the reply to the k-th request it is
 * ever sent is `ReplyTo(script, k)`, and `sent` logs every request in order. The
 * collector's methods are proved against the pure specification functions
 * `Fetch`, `Processed`, `Trace`, `Gather` and `Issued`, whose properties are
 * proved as lemmas.
 */
module Collector {
  import opened PyJson

  /** Attempts `fetch_data` makes before giving up. */
  const MaxRetries: nat := 3

  /** The fixed prefix every endpoint starts with. */
  const BaseUrl: string := "https://api.example.com/"

  /** The credential the constructor reads to build the authorization header. */
  const KeyName: string := "ALPHA_VANTAGE"

  /** The dict `process_data` builds: empty, or exactly the keys symbol and price. */
  type Record = map<string, Json>

  /** What `response.json()` makes of a body: a JSON value, or it raises. */
  datatype Body = Decoded(value: Json) | Undecodable

  /** The outcome of one `requests.get`: a response, or a transport exception. */
  datatype Reply = Response(status: int, body: Body) | ConnectionFailure

  /** One GET request as sent: its URL and its headers. */
  datatype Request = Request(url: string, headers: map<string, string>)

  /** An attempt ends the retry loop: status 200 and a body that decodes. */
  predicate Succeeds(reply: Reply)
  {
    reply.Response? && reply.status == 200 && reply.body.Decoded?
  }

  /**
   * The headers the constructor builds; reading the credential out of a
   * mapping that lacks it raises KeyError, which aborts construction.
   */
  function BuildHeaders(apiKeys: map<string, string>): (r: Outcome<map<string, string>>)
    ensures r.Raised? <==> KeyName !in apiKeys
    ensures r.Raised? ==> r.error == KeyError
    ensures r.Returned? ==>
      && r.value.Keys == {"Content-Type", "Authorization"}
      && r.value["Content-Type"] == "application/json"
      && r.value["Authorization"] == "Bearer " + apiKeys[KeyName]
  {
    if KeyName in apiKeys then
      Returned(map["Content-Type" := "application/json", "Authorization" := "Bearer " + apiKeys[KeyName]])
    else
      Raised(KeyError)
  }

  /** The URL queried for a symbol: the base URL followed by the symbol itself. */
  function Endpoint(symbol: string): (url: string)
    ensures |url| == |BaseUrl| + |symbol|
    ensures url[..|BaseUrl|] == BaseUrl && url[|BaseUrl|..] == symbol
  {
    BaseUrl + symbol
  }

  /** Different symbols are sent to different URLs. */
  lemma EndpointInjective(a: string, b: string)
    requires Endpoint(a) == Endpoint(b)
    ensures a == b
  {
    assert a == Endpoint(a)[|BaseUrl|..];
  }

  // ---------------------------------------------------------------------
  // fetch_data

  /** What the retry loop yields: the body (Null for None) and how many requests it sent. */
  datatype Fetched = Fetched(body: Json, attempts: nat)

  /**
   * The retry loop run over the replies its successive attempts would get:
   * the first successful reply ends it; when none succeeds, every reply is
   * used up and the result is None.
   */
  function Fetch(replies: seq<Reply>): (f: Fetched)
    ensures f.attempts <= |replies|
    ensures replies != [] ==> 1 <= f.attempts
  {
    if replies == [] then Fetched(Null, 0)
    else if Succeeds(replies[0]) then Fetched(replies[0].body.value, 1)
    else
      var rest := Fetch(replies[1..]);
      Fetched(rest.body, rest.attempts + 1)
  }

  /** The first successful reply is returned, and no request is sent after it. */
  lemma {:induction false} FetchFirstSuccess(replies: seq<Reply>, n: nat)
    requires n < |replies| && Succeeds(replies[n])
    requires forall k :: 0 <= k < n ==> !Succeeds(replies[k])
    ensures Fetch(replies) == Fetched(replies[n].body.value, n + 1)
  {
    if n > 0 {
      assert !Succeeds(replies[0]);
      FetchFirstSuccess(replies[1..], n - 1);
    }
  }

  /** When no attempt succeeds, every attempt is used and the result is None. */
  lemma {:induction false} FetchExhausted(replies: seq<Reply>)
    requires forall k :: 0 <= k < |replies| ==> !Succeeds(replies[k])
    ensures Fetch(replies) == Fetched(Null, |replies|)
  {
    if replies != [] {
      assert !Succeeds(replies[0]);
      FetchExhausted(replies[1..]);
    }
  }

  /** A success after failed attempts yields the same body as an immediate success. */
  lemma LateSuccessLikeImmediate(replies: seq<Reply>, n: nat)
    requires n < |replies| && Succeeds(replies[n])
    requires forall k :: 0 <= k < n ==> !Succeeds(replies[k])
    ensures Fetch(replies).body == Fetch(replies[n..]).body
    ensures Fetch(replies[n..]).attempts == 1
  {
    FetchFirstSuccess(replies, n);
    FetchFirstSuccess(replies[n..], 0);
  }

  /**
   * The reply to request number k: the k-th entry of the script; a request
   * past its end meets a transport failure.
   */
  function ReplyTo(script: seq<Reply>, k: nat): Reply
  {
    if k < |script| then script[k] else ConnectionFailure
  }

  /** The replies the next `MaxRetries` requests get, counting from request `start`. */
  function Upcoming(script: seq<Reply>, start: nat): (replies: seq<Reply>)
    ensures |replies| == MaxRetries
    ensures forall k :: 0 <= k < MaxRetries ==> replies[k] == ReplyTo(script, start + k)
  {
    seq(MaxRetries, k requires 0 <= k => ReplyTo(script, start + k))
  }

  /** `n` copies of one request. */
  function Repeat(request: Request, n: nat): (s: seq<Request>)
    ensures |s| == n
    ensures forall k :: 0 <= k < n ==> s[k] == request
  {
    seq(n, _ => request)
  }

  // ---------------------------------------------------------------------
  // process_data

  /** The `except KeyError` handler: a KeyError becomes the empty record, anything else propagates. */
  function HandleKeyError(e: PyError): (r: Outcome<Record>)
    ensures r.Returned? <==> e == KeyError
    ensures r.Returned? ==> r.value == map[]
    ensures r.Raised? ==> r.error == e
  {
    if e == KeyError then Returned(map[]) else Raised(e)
  }

  /**
   * What `process_data` makes of a decoded body. A dict without `data` gives
   * the empty record, a `data` dict holding both fields the complete record,
   * a `data` dict missing one of them the empty record. Any other shape on
   * the way raises TypeError, which the KeyError handler lets through: None
   * (an exhausted fetch) is one of them.
   */
  function Processed(raw: Json): (r: Outcome<Record>)
    ensures r.Returned? ==> r.value == map[] || r.value.Keys == {"symbol", "price"}
    ensures r.Raised? ==> r.error == TypeError
    ensures raw == Null ==> r == Raised(TypeError)
  {
    match raw
    case Obj(fields) =>
      if "data" !in fields then Returned(map[])
      else (
        match fields["data"]
        case Obj(data) =>
          if "symbol" in data && "price" in data then
            Returned(map["symbol" := data["symbol"], "price" := data["price"]])
          else
            Returned(map[])
        case _ => Raised(TypeError))
    case Arr(items) => if Str("data") in items then Raised(TypeError) else Returned(map[])
    case Str(s) => if IsSubstring("data", s) then Raised(TypeError) else Returned(map[])
    case _ => Raised(TypeError)
  }

  /** A `data` dict holding both fields yields exactly those two fields. */
  lemma ProcessedComplete(raw: Json, symbol: Json, price: Json)
    requires raw.Obj? && "data" in raw.fields && raw.fields["data"].Obj?
    requires var data := raw.fields["data"].fields;
      "symbol" in data && data["symbol"] == symbol && "price" in data && data["price"] == price
    ensures Processed(raw) == Returned(map["symbol" := symbol, "price" := price])
  {
  }

  /** A dict without a `data` key yields the empty record. */
  lemma ProcessedWithoutData(raw: Json)
    requires raw.Obj? && "data" !in raw.fields
    ensures Processed(raw) == Returned(map[])
  {
  }

  /** A `data` dict lacking either field yields the empty record, never a partial one. */
  lemma ProcessedIncomplete(raw: Json)
    requires raw.Obj? && "data" in raw.fields && raw.fields["data"].Obj?
    requires !HasKey(raw.fields["data"], "symbol") || !HasKey(raw.fields["data"], "price")
    ensures Processed(raw) == Returned(map[])
  {
  }

  // ---------------------------------------------------------------------
  // collect

  /**
   * One pass of the collect loop: the requested symbol, what its fetch
   * yielded and what `process_data` made of the body.
   */
  datatype Step = Step(symbol: string, fetched: Fetched, processed: Outcome<Record>)

  /** Requests sent by the fetches of a run of steps. */
  function Attempts(steps: seq<Step>): nat
  {
    if steps == [] then 0 else steps[0].fetched.attempts + Attempts(steps[1..])
  }

  /**
   * The passes `collect` makes over `symbols`, in order, when the first
   * request it sends is request number `cursor` of the network: each
   * symbol's retry loop picks up the replies where the previous one stopped.
   */
  function Trace(symbols: seq<string>, script: seq<Reply>, cursor: nat): (steps: seq<Step>)
    ensures |steps| == |symbols|
    decreases |symbols|
  {
    if symbols == [] then []
    else
      var fetched := Fetch(Upcoming(script, cursor));
      [Step(symbols[0], fetched, Processed(fetched.body))] + Trace(symbols[1..], script, cursor + fetched.attempts)
  }

  /** Pass k of a trace requests symbol k, makes one to three attempts, and processes what they fetched. */
  lemma {:induction false} TraceSteps(symbols: seq<string>, script: seq<Reply>, cursor: nat)
    ensures forall k :: 0 <= k < |symbols| ==>
      var step := Trace(symbols, script, cursor)[k];
      && step.symbol == symbols[k]
      && 1 <= step.fetched.attempts <= MaxRetries
      && step.processed == Processed(step.fetched.body)
    decreases |symbols|
  {
    if symbols != [] {
      var steps := Trace(symbols, script, cursor);
      TraceSteps(symbols[1..], script, cursor + steps[0].fetched.attempts);
      assert forall k :: 1 <= k < |symbols| ==> steps[k] == steps[1..][k - 1];
    }
  }

  /** Pass k fetches with the replies left over by the k passes before it. */
  lemma {:induction false} TraceAt(symbols: seq<string>, script: seq<Reply>, cursor: nat, k: nat)
    requires k < |symbols|
    ensures var steps := Trace(symbols, script, cursor);
      steps[k].fetched == Fetch(Upcoming(script, cursor + Attempts(steps[..k])))
    decreases |symbols|
  {
    var steps := Trace(symbols, script, cursor);
    if k > 0 {
      var fetched := Fetch(Upcoming(script, cursor));
      var rest := Trace(symbols[1..], script, cursor + fetched.attempts);
      assert steps == [Step(symbols[0], fetched, Processed(fetched.body))] + rest;
      TraceAt(symbols[1..], script, cursor + fetched.attempts, k - 1);
      assert steps[..k][1..] == rest[..k - 1];
      assert Attempts(steps[..k]) == fetched.attempts + Attempts(rest[..k - 1]);
      assert steps[k] == rest[k - 1];
    } else {
      assert steps[..k] == [];
    }
  }

  /** The pass keeps its symbol: `process_data` returned a non-empty record. */
  predicate Kept(step: Step)
  {
    step.processed.Returned? && |step.processed.value| > 0
  }

  /** No later pass of the run keeps the same symbol as pass k. */
  predicate LastKept(steps: seq<Step>, k: nat)
    requires k < |steps|
  {
    forall j :: k < j < |steps| && steps[j].symbol == steps[k].symbol ==> !Kept(steps[j])
  }

  /**
   * The dict `collect` returns after the passes `steps`, having built `data`
   * so far: each non-empty record is stored under its requested symbol,
   * overwriting an earlier one; the first pass whose `process_data` raised
   * makes the whole call raise.
   */
  function Gather(data: map<string, Record>, steps: seq<Step>): (r: Outcome<map<string, Record>>)
    ensures r.Returned? <==> forall k :: 0 <= k < |steps| ==> steps[k].processed.Returned?
    ensures r.Returned? ==> data.Keys <= r.value.Keys
    decreases |steps|
  {
    if steps == [] then Returned(data)
    else
      match steps[0].processed
      case Raised(e) => Raised(e)
      case Returned(record) =>
        Gather(if |record| > 0 then data[steps[0].symbol := record] else data, steps[1..])
  }

  /** The requests the passes send: none after the pass whose `process_data` raised. */
  function Issued(steps: seq<Step>, headers: map<string, string>): (sent: seq<Request>)
    ensures |sent| <= Attempts(steps)
    ensures (forall k :: 0 <= k < |steps| ==> steps[k].processed.Returned?) ==> |sent| == Attempts(steps)
  {
    if steps == [] then []
    else
      Repeat(Request(Endpoint(steps[0].symbol), headers), steps[0].fetched.attempts)
      + (if steps[0].processed.Raised? then [] else Issued(steps[1..], headers))
  }

  /**
   * The loop invariant of `collect` after i passes, with `data` built so far
   * and `sent` the network's log (which started as `sent0`): the passes still
   * to come, picking up the replies at the end of the log, complete the run.
   */
  ghost predicate CollectInv(symbols: seq<string>, script: seq<Reply>, headers: map<string, string>,
                             steps: seq<Step>, sent0: seq<Request>,
                             i: nat, data: map<string, Record>, sent: seq<Request>)
  {
    && i <= |symbols|
    && Gather(map[], steps) == Gather(data, Trace(symbols[i..], script, |sent|))
    && sent0 + Issued(steps, headers) == sent + Issued(Trace(symbols[i..], script, |sent|), headers)
  }

  /** Before the first pass the invariant holds of the whole run. */
  lemma CollectStart(symbols: seq<string>, script: seq<Reply>, headers: map<string, string>, sent0: seq<Request>)
    ensures CollectInv(symbols, script, headers, Trace(symbols, script, |sent0|), sent0, 0, map[], sent0)
  {
    assert symbols[0..] == symbols;
  }

  /**
   * One pass of the collect loop, over the symbol at position i: either
   * `process_data` raises and the run ends there, or the invariant carries
   * over to the next symbol.
   */
  lemma CollectPass(symbols: seq<string>, script: seq<Reply>, headers: map<string, string>,
                    steps: seq<Step>, sent0: seq<Request>,
                    i: nat, data: map<string, Record>, sent: seq<Request>)
    requires i < |symbols|
    requires CollectInv(symbols, script, headers, steps, sent0, i, data, sent)
    ensures var fetched := Fetch(Upcoming(script, |sent|));
      var processed := Processed(fetched.body);
      var sent' := sent + Repeat(Request(Endpoint(symbols[i]), headers), fetched.attempts);
      && (processed.Raised? ==>
           Gather(map[], steps) == Raised(processed.error) && sent0 + Issued(steps, headers) == sent')
      && (processed.Returned? ==>
           var data' := if |processed.value| > 0 then data[symbols[i] := processed.value] else data;
           CollectInv(symbols, script, headers, steps, sent0, i + 1, data', sent'))
  {
    var fetched := Fetch(Upcoming(script, |sent|));
    var remaining := Trace(symbols[i..], script, |sent|);
    var first := Repeat(Request(Endpoint(symbols[i]), headers), fetched.attempts);
    var rest := Trace(symbols[i + 1..], script, |sent + first|);
    assert symbols[i..][1..] == symbols[i + 1..];
    assert remaining == [Step(symbols[i], fetched, Processed(fetched.body))] + rest;
    assert remaining[1..] == rest;
    if Processed(fetched.body).Returned? {
      assert Issued(remaining, headers) == first + Issued(rest, headers);
      AppendAssoc(sent, first, Issued(rest, headers));
    }
  }

  /** At the end of the symbols the invariant gives what `collect` returns and what it sent. */
  lemma CollectDone(symbols: seq<string>, script: seq<Reply>, headers: map<string, string>,
                    steps: seq<Step>, sent0: seq<Request>, data: map<string, Record>, sent: seq<Request>)
    requires CollectInv(symbols, script, headers, steps, sent0, |symbols|, data, sent)
    ensures Gather(map[], steps) == Returned(data)
    ensures sent0 + Issued(steps, headers) == sent
  {
    assert symbols[|symbols|..] == [];
  }

  lemma AppendAssoc<T>(a: seq<T>, b: seq<T>, c: seq<T>)
    ensures (a + b) + c == a + (b + c)
  {
  }

  /**
   * A gather that raises does so with the error of the first pass whose
   * `process_data` raised: every pass before it returned.
   */
  lemma {:induction false} GatherRaises(data: map<string, Record>, steps: seq<Step>)
    requires Gather(data, steps).Raised?
    ensures exists k ::
      && 0 <= k < |steps|
      && steps[k].processed == Raised(Gather(data, steps).error)
      && forall j :: 0 <= j < k ==> steps[j].processed.Returned?
    decreases |steps|
  {
    match steps[0].processed
    case Raised(e) =>
      assert steps[0].processed == Raised(Gather(data, steps).error);
    case Returned(record) =>
      var next := if |record| > 0 then data[steps[0].symbol := record] else data;
      GatherRaises(next, steps[1..]);
      var k :| 0 <= k < |steps[1..]| && steps[1..][k].processed == Raised(Gather(next, steps[1..]).error)
        && forall j :: 0 <= j < k ==> steps[1..][j].processed.Returned?;
      assert steps[k + 1] == steps[1..][k];
      assert forall j :: 1 <= j < k + 1 ==> steps[j] == steps[1..][j - 1];
  }

  /**
   * A completed gather holds a symbol exactly when it was already there or
   * some pass requested it and kept a record: keys are requested symbols,
   * never the symbol the response carried.
   */
  lemma {:induction false} GatherKeys(data: map<string, Record>, steps: seq<Step>)
    requires Gather(data, steps).Returned?
    ensures forall s :: s in Gather(data, steps).value <==>
      s in data || exists k :: 0 <= k < |steps| && steps[k].symbol == s && Kept(steps[k])
    decreases |steps|
  {
    if steps != [] {
      var record := steps[0].processed.value;
      var next := if |record| > 0 then data[steps[0].symbol := record] else data;
      GatherKeys(next, steps[1..]);
      assert forall k :: 1 <= k < |steps| ==> steps[k] == steps[1..][k - 1];
      forall s | s in next
        ensures s in data || exists k :: 0 <= k < |steps| && steps[k].symbol == s && Kept(steps[k])
      {
        if s !in data {
          assert steps[0].symbol == s && Kept(steps[0]);
        }
      }
    }
  }

  /** The entry of a symbol is the record of the last pass that kept one for it. */
  lemma {:induction false} GatherLastWins(data: map<string, Record>, steps: seq<Step>, k: nat)
    requires Gather(data, steps).Returned?
    requires k < |steps| && Kept(steps[k]) && LastKept(steps, k)
    ensures steps[k].symbol in Gather(data, steps).value
    ensures Gather(data, steps).value[steps[k].symbol] == steps[k].processed.value
    decreases |steps|
  {
    var record := steps[0].processed.value;
    var next := if |record| > 0 then data[steps[0].symbol := record] else data;
    var rest := steps[1..];
    if k == 0 {
      GatherKeeps(next, rest, steps[0].symbol);
    } else {
      assert LastKept(rest, k - 1) by {
        forall j | k - 1 < j < |rest| && rest[j].symbol == rest[k - 1].symbol
          ensures !Kept(rest[j])
        {
          assert rest[j] == steps[j + 1];
        }
      }
      GatherLastWins(next, rest, k - 1);
    }
  }

  /** An entry no later pass keeps a record for survives unchanged. */
  lemma {:induction false} GatherKeeps(data: map<string, Record>, steps: seq<Step>, s: string)
    requires Gather(data, steps).Returned? && s in data
    requires forall j :: 0 <= j < |steps| && steps[j].symbol == s ==> !Kept(steps[j])
    ensures s in Gather(data, steps).value && Gather(data, steps).value[s] == data[s]
    decreases |steps|
  {
    if steps != [] {
      var record := steps[0].processed.value;
      var next := if |record| > 0 then data[steps[0].symbol := record] else data;
      assert forall j :: 1 <= j < |steps| ==> steps[1..][j - 1] == steps[j];
      GatherKeeps(next, steps[1..], s);
    }
  }

  /** When every entry so far and every kept record is complete, so is every entry of the result. */
  lemma {:induction false} GatherComplete(data: map<string, Record>, steps: seq<Step>)
    requires Gather(data, steps).Returned?
    requires forall s :: s in data ==> data[s].Keys == {"symbol", "price"}
    requires forall k :: 0 <= k < |steps| ==> steps[k].processed == Processed(steps[k].fetched.body)
    ensures forall s :: s in Gather(data, steps).value ==> Gather(data, steps).value[s].Keys == {"symbol", "price"}
    decreases |steps|
  {
    if steps != [] {
      var record := steps[0].processed.value;
      var next := if |record| > 0 then data[steps[0].symbol := record] else data;
      assert forall j :: 1 <= j < |steps| ==> steps[1..][j - 1] == steps[j];
      GatherComplete(next, steps[1..]);
    }
  }

  /** Every request sent carries the collector's headers and targets the endpoint of a requested symbol. */
  lemma {:induction false} IssuedRequests(steps: seq<Step>, headers: map<string, string>)
    ensures forall q :: q in Issued(steps, headers) ==>
      && q.headers == headers
      && exists k :: 0 <= k < |steps| && q.url == Endpoint(steps[k].symbol)
  {
    if steps != [] {
      IssuedRequests(steps[1..], headers);
      assert forall k :: 1 <= k < |steps| ==> steps[1..][k - 1] == steps[k];
      var first := Repeat(Request(Endpoint(steps[0].symbol), headers), steps[0].fetched.attempts);
      forall q | q in first
        ensures q.headers == headers && q.url == Endpoint(steps[0].symbol)
      {
      }
    }
  }

  /**
   * What `collect` promises, over the passes it makes: it raises exactly
   * when some fetched body makes `process_data` raise, and then with
   * TypeError; otherwise a symbol is a key exactly when some pass for it
   * kept a record, its entry is the record of the last such pass, and every
   * entry is a complete `{symbol, price}` record.
   */
  lemma CollectSpec(symbols: seq<string>, script: seq<Reply>, cursor: nat)
    ensures var steps := Trace(symbols, script, cursor);
      && (Gather(map[], steps).Raised? <==>
           exists k :: 0 <= k < |steps| && Processed(steps[k].fetched.body).Raised?)
      && (Gather(map[], steps).Raised? ==> Gather(map[], steps).error == TypeError)
    ensures var steps := Trace(symbols, script, cursor);
      Gather(map[], steps).Returned? ==>
        && (forall s :: s in Gather(map[], steps).value <==>
             exists k :: 0 <= k < |steps| && symbols[k] == s && Kept(steps[k]))
        && (forall k :: 0 <= k < |steps| && Kept(steps[k]) && LastKept(steps, k) ==>
             Gather(map[], steps).value[symbols[k]] == steps[k].processed.value)
        && (forall s :: s in Gather(map[], steps).value ==>
             Gather(map[], steps).value[s].Keys == {"symbol", "price"})
  {
    var steps := Trace(symbols, script, cursor);
    TraceSteps(symbols, script, cursor);
    if Gather(map[], steps).Raised? {
      GatherRaises(map[], steps);
    } else {
      GatherKeys(map[], steps);
      GatherComplete(map[], steps);
      forall k | 0 <= k < |steps| && Kept(steps[k]) && LastKept(steps, k)
        ensures Gather(map[], steps).value[symbols[k]] == steps[k].processed.value
      {
        GatherLastWins(map[], steps, k);
      }
    }
  }

  /**
   * The bodies on which `process_data` raises (always TypeError, which the
   * KeyError handler does not catch): None, a boolean or a number; a dict
   * whose `data` is not a dict; a list holding the string "data"; a string
   * containing "data".
   */
  lemma ProcessedRaises(raw: Json)
    ensures Processed(raw).Raised? <==>
      || raw.Null? || raw.Bool? || raw.Num?
      || (raw.Obj? && "data" in raw.fields && !raw.fields["data"].Obj?)
      || (raw.Arr? && exists k :: 0 <= k < |raw.items| && raw.items[k] == Str("data"))
      || (raw.Str? && Occurs("data", raw.s))
  {
    if raw.Str? {
      IsSubstringOccurs("data", raw.s);
    }
  }

  /**
   * Pass k whose fetched body makes `process_data` raise makes `collect`
   * raise TypeError, unless an earlier pass already raised.
   */
  lemma RaisingBodyFailsCollect(symbols: seq<string>, script: seq<Reply>, cursor: nat, k: nat)
    requires k < |symbols|
    requires Processed(Fetch(Upcoming(script, cursor + Attempts(Trace(symbols, script, cursor)[..k]))).body).Raised?
    ensures Gather(map[], Trace(symbols, script, cursor)) == Raised(TypeError)
  {
    var steps := Trace(symbols, script, cursor);
    TraceAt(symbols, script, cursor, k);
    TraceSteps(symbols, script, cursor);
    assert steps[k].processed.Raised?;
    CollectSpec(symbols, script, cursor);
  }

  /** A symbol whose three attempts all fail makes `collect` raise TypeError instead of skipping it. */
  lemma ExhaustedFetchFailsCollect(symbols: seq<string>, script: seq<Reply>, cursor: nat, k: nat)
    requires k < |symbols|
    requires forall reply :: reply in Upcoming(script, cursor + Attempts(Trace(symbols, script, cursor)[..k])) ==>
      !Succeeds(reply)
    ensures Gather(map[], Trace(symbols, script, cursor)) == Raised(TypeError)
  {
    var replies := Upcoming(script, cursor + Attempts(Trace(symbols, script, cursor)[..k]));
    assert forall j :: 0 <= j < |replies| ==> replies[j] in replies;
    FetchExhausted(replies);
    RaisingBodyFailsCollect(symbols, script, cursor, k);
  }

  /**
   * A successful reply whose `data` is null: `collect` raises TypeError
   * rather than omitting the symbol.
   */
  lemma NullDataScenario()
    ensures
      var reply := Response(200, Decoded(Obj(map["data" := Null])));
      Gather(map[], Trace(["AAPL"], [reply], 0)) == Raised(TypeError)
  {
    var reply := Response(200, Decoded(Obj(map["data" := Null])));
    var steps := Trace(["AAPL"], [reply], 0);
    assert steps[..0] == [];
    FetchFirstSuccess(Upcoming([reply], 0), 0);
    RaisingBodyFailsCollect(["AAPL"], [reply], 0, 0);
  }

  /**
   * Two symbols, the first endpoint answering 500 three times and the second
   * answering with a complete record: the call raises TypeError rather than
   * returning the second symbol alone.
   */
  lemma FailedFirstSymbolScenario()
    ensures
      var googl := Obj(map["data" := Obj(map["symbol" := Str("GOOGL"), "price" := Num(150.0)])]);
      var failed := Response(500, Decoded(Obj(map[])));
      var script := [failed, failed, failed, Response(200, Decoded(googl))];
      Gather(map[], Trace(["AAPL", "GOOGL"], script, 0)) == Raised(TypeError)
  {
    var googl := Obj(map["data" := Obj(map["symbol" := Str("GOOGL"), "price" := Num(150.0)])]);
    var failed := Response(500, Decoded(Obj(map[])));
    var script := [failed, failed, failed, Response(200, Decoded(googl))];
    var steps := Trace(["AAPL", "GOOGL"], script, 0);
    assert steps[..0] == [];
    ExhaustedFetchFailsCollect(["AAPL", "GOOGL"], script, 0, 0);
  }

  // ---------------------------------------------------------------------
  // The imperative collector

  /** The HTTP client: replies come from a fixed script, requests are logged in order. */
  class Network {
    const script: seq<Reply>
    var sent: seq<Request>

    constructor (script: seq<Reply>)
      ensures this.script == script && sent == []
    {
      this.script := script;
      sent := [];
    }

    /** `requests.get`: sends one request and returns the scripted reply to it. */
    method Get(request: Request) returns (reply: Reply)
      modifies this
      ensures sent == old(sent) + [request]
      ensures reply == ReplyTo(script, |old(sent)|)
    {
      reply := ReplyTo(script, |sent|);
      sent := sent + [request];
    }
  }

  class MarketDataCollector {
    const apiKeys: map<string, string>
    const headers: map<string, string>

    /** Construction needs the credential; without it the header lookup raises KeyError. */
    constructor (apiKeys: map<string, string>)
      requires KeyName in apiKeys
      ensures this.apiKeys == apiKeys
      ensures Returned(headers) == BuildHeaders(apiKeys)
    {
      this.apiKeys := apiKeys;
      headers := BuildHeaders(apiKeys).value;
    }

    /**
     * `fetch_data`: up to three GETs of `endpoint` with the collector's
     * headers, stopping at the first successful one.
     */
    method FetchData(endpoint: string, net: Network) returns (body: Json)
      modifies net
      ensures var f := Fetch(Upcoming(net.script, |old(net.sent)|));
        && body == f.body
        && net.sent == old(net.sent) + Repeat(Request(endpoint, headers), f.attempts)
    {
      ghost var replies := Upcoming(net.script, |net.sent|);
      var attempt := 0;
      while attempt < MaxRetries
        invariant 0 <= attempt <= MaxRetries
        invariant net.sent == old(net.sent) + Repeat(Request(endpoint, headers), attempt)
        invariant forall k :: 0 <= k < attempt ==> !Succeeds(replies[k])
      {
        var reply := net.Get(Request(endpoint, headers));
        assert reply == replies[attempt];
        match reply {
          case Response(status, decoded) =>
            if status == 200 && decoded.Decoded? {
              FetchFirstSuccess(replies, attempt);
              assert net.sent == old(net.sent) + Repeat(Request(endpoint, headers), attempt + 1);
              return decoded.value;
            }
            // another status is logged and retried; a body that does not
            // decode raises inside the try and is caught the same way
          case ConnectionFailure =>
            // a transport exception is caught and the next attempt made
        }
        assert net.sent == old(net.sent) + Repeat(Request(endpoint, headers), attempt + 1);
        attempt := attempt + 1;
      }
      FetchExhausted(replies);
      return Null;
    }

    /**
     * `process_data`: fills the record key by key; a KeyError on the way
     * discards what was filled and yields the empty record.
     */
    method ProcessData(raw: Json) returns (r: Outcome<Record>)
      ensures r == Processed(raw)
    {
      var processed: Record := map[];
      var hasData := Contains(raw, "data");
      if hasData.Raised? {
        return Raised(hasData.error);
      }
      if hasData.value {
        var data := Subscript(raw, "data");
        if data.Raised? {
          return HandleKeyError(data.error);
        }
        var symbol := Subscript(data.value, "symbol");
        if symbol.Raised? {
          return HandleKeyError(symbol.error);
        }
        processed := processed["symbol" := symbol.value];
        var price := Subscript(data.value, "price");
        if price.Raised? {
          return HandleKeyError(price.error);
        }
        processed := processed["price" := price.value];
      }
      return Returned(processed);
    }

    /**
     * `collect`: for each symbol in order, fetch its endpoint, process the
     * body, and store a non-empty record under the requested symbol.
     */
    method Collect(symbols: seq<string>, net: Network) returns (r: Outcome<map<string, Record>>)
      modifies net
      ensures var steps := Trace(symbols, net.script, |old(net.sent)|);
        && r == Gather(map[], steps)
        && net.sent == old(net.sent) + Issued(steps, headers)
    {
      ghost var script := net.script;
      ghost var sent0 := net.sent;
      ghost var steps := Trace(symbols, script, |sent0|);
      var data: map<string, Record> := map[];
      var i := 0;
      CollectStart(symbols, script, headers, sent0);
      while i < |symbols|
        invariant net.script == script
        invariant CollectInv(symbols, script, headers, steps, sent0, i, data, net.sent)
      {
        CollectPass(symbols, script, headers, steps, sent0, i, data, net.sent);
        var symbol := symbols[i];
        var rawData := FetchData(Endpoint(symbol), net);
        var processed := ProcessData(rawData);
        if processed.Raised? {
          return Raised(processed.error);
        }
        data := if |processed.value| > 0 then data[symbol := processed.value] else data;
        i := i + 1;
      }
      CollectDone(symbols, script, headers, steps, sent0, data, net.sent);
      return Returned(data);
    }
  }
}
