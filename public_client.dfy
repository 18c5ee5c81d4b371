/**
 * The public REST client: its defaults, the building of request URIs, the
 * merging of default headers, and the paging of the historical trade stream.
 * The trade stream is modelled over a given sequence of page replies, one per
 * request it issues, in order.
 */
module PublicClient {
  import opened Wrappers

  const DefaultProductId: string := "BTC-USD"
  const DefaultApiUri: string := "https://api.gdax.com"
  /** The page size of the exchange's paginated endpoints. */
  const ApiLimit: int := 100

  datatype Client = Client(productId: string, apiUri: string, apiLimit: int)

  /** The constructor, with the source's default arguments. */
  function NewClient(productId: string := DefaultProductId, apiUri: string := DefaultApiUri): Client
  {
    Client(productId, apiUri, ApiLimit)
  }

  lemma DefaultClient()
    ensures NewClient() == Client("BTC-USD", "https://api.gdax.com", 100)
    ensures NewClient("ETH-USD").apiUri == "https://api.gdax.com"
  {
  }

  // ---------------------------------------------------------------------------
  // URIs

  /** JavaScript's `Array.prototype.join` over strings. */
  function Join(parts: seq<string>, sep: string): string
    decreases |parts|
  {
    if |parts| == 0 then ""
    else if |parts| == 1 then parts[0]
    else parts[0] + sep + Join(parts[1..], sep)
  }

  /** JavaScript's `String.prototype.split` on a one-character separator. */
  function Split(s: string, sep: char): (r: seq<string>)
    ensures |r| >= 1
    decreases |s|
  {
    if |s| == 0 then [""]
    else
      var rest := Split(s[1..], sep);
      if s[0] == sep then [""] + rest else [[s[0]] + rest[0]] + rest[1..]
  }

  /** No part contains the separator. */
  predicate NoSeparator(parts: seq<string>, sep: char)
  {
    forall i :: 0 <= i < |parts| ==> sep !in parts[i]
  }

  function MakeRelativeUri(parts: seq<string>): (r: string)
    ensures |r| >= 1 && r[0] == '/'
  {
    "/" + Join(parts, "/")
  }

  function MakeAbsoluteUri(c: Client, relativeUri: string): (r: string)
    ensures |r| == |c.apiUri| + |relativeUri|
    ensures r[..|c.apiUri|] == c.apiUri && r[|c.apiUri|..] == relativeUri
  {
    c.apiUri + relativeUri
  }

  lemma {:induction false} SplitPlain(p: string, sep: char)
    requires sep !in p
    ensures Split(p, sep) == [p]
    decreases |p|
  {
    if |p| > 0 {
      SplitPlain(p[1..], sep);
      assert [p[0]] + p[1..] == p;
    }
  }

  lemma {:induction false} SplitAtSeparator(p: string, sep: char, t: string)
    requires sep !in p
    ensures Split(p + [sep] + t, sep) == [p] + Split(t, sep)
    decreases |p|
  {
    var s := p + [sep] + t;
    if |p| == 0 {
      assert s == [sep] + t && s[1..] == t;
    } else {
      assert s[1..] == p[1..] + [sep] + t;
      SplitAtSeparator(p[1..], sep, t);
      assert [p[0]] + p[1..] == p;
    }
  }

  /** Joining parts free of the separator and splitting again gives the parts back. */
  lemma {:induction false} SplitJoin(parts: seq<string>, sep: char)
    requires |parts| >= 1 && NoSeparator(parts, sep)
    ensures Split(Join(parts, [sep]), sep) == parts
    decreases |parts|
  {
    if |parts| > 1 {
      SplitJoin(parts[1..], sep);
      SplitAtSeparator(parts[0], sep, Join(parts[1..], [sep]));
      assert [parts[0]] + parts[1..] == parts;
    } else {
      SplitPlain(parts[0], sep);
    }
  }

  /**
   * A relative URI is a slash followed by its parts joined with slashes: split
   * on '/', it gives an empty leading piece and then the parts, in order.
   */
  lemma RelativeUriParts(parts: seq<string>)
    requires |parts| >= 1 && NoSeparator(parts, '/')
    ensures Split(MakeRelativeUri(parts), '/') == [""] + parts
  {
    SplitJoin(parts, '/');
    assert MakeRelativeUri(parts) == [] + ['/'] + Join(parts, "/");
    SplitAtSeparator([], '/', Join(parts, "/"));
  }

  /**
   * Without that precondition the parts cannot be recovered: no parts and one
   * empty part both give "/", and a part holding a slash gives the same URI as
   * its pieces.
   */
  lemma RelativeUriAmbiguous()
    ensures MakeRelativeUri([]) == "/" == MakeRelativeUri([""])
    ensures Split(MakeRelativeUri([]), '/') == ["", ""]
    ensures MakeRelativeUri(["funding/repay"]) == "/funding/repay" == MakeRelativeUri(["funding", "repay"])
  {
    assert Join(["funding", "repay"], "/") == "funding" + "/" + "repay";
  }

  // ---------------------------------------------------------------------------
  // Headers

  function DefaultHeaders(): map<string, string>
  {
    map["User-Agent" := "gdax-node-client",
        "Accept" := "application/json",
        "Content-Type" := "application/json"]
  }

  /** `Object.assign(headers, defaults, additional)`: later sources win key by key. */
  function MergeHeaders(existing: map<string, string>, additional: map<string, string>): (r: map<string, string>)
    ensures r.Keys == existing.Keys + DefaultHeaders().Keys + additional.Keys
    ensures forall k :: k in additional ==> r[k] == additional[k]
    ensures forall k :: k in DefaultHeaders() && k !in additional ==> r[k] == DefaultHeaders()[k]
    ensures forall k :: k in existing && k !in DefaultHeaders() && k !in additional ==> r[k] == existing[k]
  {
    existing + DefaultHeaders() + additional
  }

  /** The options object of a request; only its headers are modelled. */
  class RequestOptions {
    var headers: Option<map<string, string>>

    constructor (headers: Option<map<string, string>>)
      ensures this.headers == headers
    {
      this.headers := headers;
    }
  }

  /**
   * `addHeaders`: give `obj` a headers object if it has none, then assign the
   * default headers and the additional ones onto it; returns the headers.
   * An absent `additional` is the empty map.
   */
  method AddHeaders(obj: RequestOptions, additional: map<string, string>) returns (r: map<string, string>)
    modifies obj
    ensures obj.headers == Some(r)
    ensures r == MergeHeaders(if old(obj.headers).Some? then old(obj.headers).value else map[], additional)
  {
    var existing := if obj.headers.Some? then obj.headers.value else map[];
    obj.headers := Some(MergeHeaders(existing, additional));
    r := obj.headers.value;
  }

  // ---------------------------------------------------------------------------
  // The historical trade stream

  datatype Trade = Trade(tradeId: int, time: string, price: string, size: string, side: string)

  /** The query of one page: trades with ids strictly between `before` and `after`, at most `limit`. */
  datatype Window = Window(before: int, after: int, limit: int)

  /** What a page request hands to its callback. */
  datatype PageReply = TransportError(err: string) | Page(statusCode: int, data: seq<Trade>)

  /** How the stream stands: ended, failed with an error event, or still waiting for a reply. */
  datatype StreamEnd = Ended | Errored(err: string) | BadStatus(code: int) | Waiting

  /** The windows requested, the trades pushed, and how the stream stands. */
  datatype StreamResult = StreamResult(requests: seq<Window>, emitted: seq<Trade>, end: StreamEnd)

  /** The second argument of `getProductTradeStream`: a last id, a stop predicate, or nothing. */
  datatype TradesTo = UpTo(id: int) | Until(shouldStop: Trade -> bool) | Unbounded

  /** The `tradesTo` bound `fetchTrades` receives: `null` when a stop predicate was given. */
  function TradesToBound(tradesTo: TradesTo): Option<int>
  {
    if tradesTo.UpTo? then Some(tradesTo.id) else None
  }

  function StopOf(tradesTo: TradesTo): Option<Trade -> bool>
  {
    if tradesTo.Until? then Some(tradesTo.shouldStop) else None
  }

  /** The stream's state after a failing reply: an error event for a transport error or a bad status. */
  function ErrorEnd(reply: PageReply): StreamEnd
  {
    match reply
    case TransportError(err) => Errored(err)
    case Page(code, _) => BadStatus(code)
  }

  /** JavaScript truthiness of the `tradesTo` bound: present and not 0. */
  predicate Truthy(tradesTo: Option<int>)
  {
    tradesTo.Some? && tradesTo.value != 0
  }

  /** The window of the page after `tradesFrom`, and whether a further page follows it. */
  function PageWindow(c: Client, tradesFrom: int, tradesTo: Option<int>): (r: (Window, bool))
    ensures r.0.before == tradesFrom && r.0.limit == c.apiLimit
    ensures !r.1 <==> Truthy(tradesTo) && tradesTo.value <= tradesFrom + c.apiLimit + 1
    ensures r.0.after == if r.1 then tradesFrom + c.apiLimit + 1 else tradesTo.value
    ensures Truthy(tradesTo) ==> r.0.after <= tradesTo.value
  {
    var after := tradesFrom + c.apiLimit + 1;
    if Truthy(tradesTo) && tradesTo.value <= after then (Window(tradesFrom, tradesTo.value, c.apiLimit), false)
    else (Window(tradesFrom, after, c.apiLimit), true)
  }

  /**
   * The trades a page pushes, in reverse array order, up to the first one the
   * stop predicate holds of, and whether it stopped there.
   */
  function Emission(data: seq<Trade>, stop: Option<Trade -> bool>): (r: (seq<Trade>, bool))
    ensures |r.0| <= |data|
    ensures forall i :: 0 <= i < |r.0| ==> r.0[i] == data[|data| - 1 - i]
    ensures stop.Some? ==> forall i :: 0 <= i < |r.0| ==> !stop.value(r.0[i])
    ensures r.1 <==> |r.0| < |data|
    ensures r.1 ==> stop.Some? && stop.value(data[|data| - 1 - |r.0|])
    decreases |data|
  {
    if |data| == 0 then ([], false)
    else
      var last := data[|data| - 1];
      if stop.Some? && stop.value(last) then ([], true)
      else
        var rest := Emission(data[..|data| - 1], stop);
        ([last] + rest.0, rest.1)
  }

  /** The descending loop of the page callback that pushes the trades onto the stream. */
  method EmitPage(data: seq<Trade>, stop: Option<Trade -> bool>) returns (pushed: seq<Trade>, stopped: bool)
    ensures (pushed, stopped) == Emission(data, stop)
  {
    pushed := [];
    var i := |data| - 1;
    assert data[..i + 1] == data;
    assert [] + Emission(data, stop).0 == Emission(data, stop).0;
    while i >= 0
      invariant -1 <= i < |data|
      invariant Emission(data, stop) == (pushed + Emission(data[..i + 1], stop).0, Emission(data[..i + 1], stop).1)
    {
      ghost var prefix := data[..i + 1];
      assert prefix[|prefix| - 1] == data[i] && prefix[..|prefix| - 1] == data[..i];
      if stop.Some? && stop.value(data[i]) {
        assert pushed + [] == pushed;
        return pushed, true;
      }
      ghost var rest := Emission(data[..i], stop);
      assert Emission(prefix, stop) == ([data[i]] + rest.0, rest.1);
      assert pushed + ([data[i]] + rest.0) == (pushed + [data[i]]) + rest.0;
      pushed := pushed + [data[i]];
      i := i - 1;
    }
    assert pushed + [] == pushed;
    stopped := false;
  }

  /**
   * `fetchTrades`: request the window after `tradesFrom`, then act on its reply:
   * fail on a transport error, retry the same window on status 429, fail on
   * any other status but 200, else push the page and either end (stop
   * predicate hit, or last window) or go on from `tradesFrom + API_LIMIT`.
   */
  function FetchTrades(c: Client, tradesFrom: int, tradesTo: Option<int>, stop: Option<Trade -> bool>,
                       replies: seq<PageReply>): (r: StreamResult)
    ensures 1 <= |r.requests| <= |replies| + 1
    ensures r.end == Waiting <==> |r.requests| == |replies| + 1
    ensures r.end.Errored? || r.end.BadStatus? ==> r.end == ErrorEnd(replies[|r.requests| - 1])
    decreases |replies|
  {
    var (w, more) := PageWindow(c, tradesFrom, tradesTo);
    if |replies| == 0 then StreamResult([w], [], Waiting)
    else match replies[0]
      case TransportError(err) => StreamResult([w], [], Errored(err))
      case Page(code, data) =>
        if code == 429 then
          var retry := FetchTrades(c, tradesFrom, tradesTo, stop, replies[1..]);
          StreamResult([w] + retry.requests, retry.emitted, retry.end)
        else if code != 200 then StreamResult([w], [], BadStatus(code))
        else
          var (out, stopped) := Emission(data, stop);
          if stopped || !more then StreamResult([w], out, Ended)
          else
            var next := FetchTrades(c, tradesFrom + c.apiLimit, tradesTo, stop, replies[1..]);
            StreamResult([w] + next.requests, out + next.emitted, next.end)
  }

  /** `getProductTradeStream`: a function as second argument is the stop predicate, with no last id. */
  function TradeStream(c: Client, tradesFrom: int, tradesTo: TradesTo, replies: seq<PageReply>): (r: StreamResult)
    ensures |r.requests| >= 1 && r.requests[0].before == tradesFrom
    ensures tradesTo.UpTo? && tradesTo.id != 0 ==> forall w :: w in r.requests ==> w.after <= tradesTo.id
    ensures !(tradesTo.UpTo? && tradesTo.id != 0) ==>
      forall w :: w in r.requests ==> w.after == w.before + c.apiLimit + 1
    ensures tradesTo.Until? ==> forall t :: t in r.emitted ==> !tradesTo.shouldStop(t)
  {
    WindowsTile(c, tradesFrom, TradesToBound(tradesTo), StopOf(tradesTo), replies);
    match tradesTo
    case UpTo(id) => FetchTrades(c, tradesFrom, Some(id), None, replies)
    case Until(shouldStop) =>
      NothingPushedPastStop(c, tradesFrom, None, Some(shouldStop), replies);
      FetchTrades(c, tradesFrom, None, Some(shouldStop), replies)
    case Unbounded => FetchTrades(c, tradesFrom, None, None, replies)
  }

  /**
   * The windows tile the id range: the first starts at `tradesFrom`, each spans
   * API_LIMIT ids or ends at the truthy `tradesTo`, and each next one either
   * repeats the previous (a retry) or starts exactly API_LIMIT further on.
   */
  lemma {:induction false} WindowsTile(c: Client, tradesFrom: int, tradesTo: Option<int>,
                                       stop: Option<Trade -> bool>, replies: seq<PageReply>)
    ensures var r := FetchTrades(c, tradesFrom, tradesTo, stop, replies);
      && |r.requests| >= 1
      && r.requests[0] == PageWindow(c, tradesFrom, tradesTo).0
      && r.requests[0].before == tradesFrom
      && (forall i :: 0 <= i < |r.requests| ==>
            && r.requests[i].limit == c.apiLimit
            && (r.requests[i].after == r.requests[i].before + c.apiLimit + 1
                || (Truthy(tradesTo) && r.requests[i].after == tradesTo.value))
            && (Truthy(tradesTo) ==> r.requests[i].after <= tradesTo.value))
      && (forall i :: 0 <= i < |r.requests| - 1 ==>
            r.requests[i + 1] == r.requests[i] || r.requests[i + 1].before == r.requests[i].before + c.apiLimit)
    decreases |replies|
  {
    if |replies| > 0 && replies[0].Page? {
      if replies[0].statusCode == 429 {
        WindowsTile(c, tradesFrom, tradesTo, stop, replies[1..]);
      } else if replies[0].statusCode == 200 {
        WindowsTile(c, tradesFrom + c.apiLimit, tradesTo, stop, replies[1..]);
      }
    }
  }

  /** A 429 reply requests the very same window again and otherwise changes nothing. */
  lemma RateLimitRetriesSameWindow(c: Client, tradesFrom: int, tradesTo: Option<int>,
                                   stop: Option<Trade -> bool>, replies: seq<PageReply>)
    requires |replies| > 0 && replies[0].Page? && replies[0].statusCode == 429
    ensures var r := FetchTrades(c, tradesFrom, tradesTo, stop, replies);
      var retry := FetchTrades(c, tradesFrom, tradesTo, stop, replies[1..]);
      && r.requests == [PageWindow(c, tradesFrom, tradesTo).0] + retry.requests
      && retry.requests[0] == r.requests[0]
      && r.emitted == retry.emitted && r.end == retry.end
  {
    WindowsTile(c, tradesFrom, tradesTo, stop, replies[1..]);
  }

  /** No trade the stop predicate holds of is ever pushed. */
  lemma {:induction false} NothingPushedPastStop(c: Client, tradesFrom: int, tradesTo: Option<int>,
                                                 stop: Option<Trade -> bool>, replies: seq<PageReply>)
    requires stop.Some?
    ensures forall t :: t in FetchTrades(c, tradesFrom, tradesTo, stop, replies).emitted ==> !stop.value(t)
    decreases |replies|
  {
    if |replies| > 0 && replies[0].Page? {
      NothingPushedPastStop(c, tradesFrom, tradesTo, stop, replies[1..]);
      NothingPushedPastStop(c, tradesFrom + c.apiLimit, tradesTo, stop, replies[1..]);
    }
  }

  /** When the stop predicate holds within a page, the stream ends there and no further page is requested. */
  lemma StopEndsStream(c: Client, tradesFrom: int, tradesTo: Option<int>,
                       stop: Option<Trade -> bool>, replies: seq<PageReply>)
    requires |replies| > 0 && replies[0].Page? && replies[0].statusCode == 200
    requires Emission(replies[0].data, stop).1
    ensures FetchTrades(c, tradesFrom, tradesTo, stop, replies)
         == StreamResult([PageWindow(c, tradesFrom, tradesTo).0], Emission(replies[0].data, stop).0, Ended)
  {
  }

  /**
   * A 200 page on which the stop predicate never holds is pushed whole, in
   * reverse, and is followed by the window API_LIMIT further on, unless it was
   * the last window.
   */
  lemma PageAdvances(c: Client, tradesFrom: int, tradesTo: Option<int>,
                     stop: Option<Trade -> bool>, replies: seq<PageReply>)
    requires |replies| > 0 && replies[0].Page? && replies[0].statusCode == 200
    requires !Emission(replies[0].data, stop).1
    ensures var w := PageWindow(c, tradesFrom, tradesTo);
      var out := Emission(replies[0].data, stop).0;
      var next := FetchTrades(c, tradesFrom + c.apiLimit, tradesTo, stop, replies[1..]);
      FetchTrades(c, tradesFrom, tradesTo, stop, replies)
        == if w.1 then StreamResult([w.0] + next.requests, out + next.emitted, next.end)
           else StreamResult([w.0], out, Ended)
  {
  }

  // ---------------------------------------------------------------------------
  // The stream yields consecutive ids

  /** The trades carry the consecutive ids `lo`, `lo + 1`, ... in order. */
  ghost predicate IdsFrom(trades: seq<Trade>, lo: int)
  {
    forall i :: 0 <= i < |trades| ==> trades[i].tradeId == lo + i
  }

  /**
   * Every request is answered with status 200 and exactly the trades of its
   * window, newest first, as the exchange serves a page.
   */
  ghost predicate ServedInFull(c: Client, tradesFrom: int, tradesTo: int, replies: seq<PageReply>)
    decreases |replies|
  {
    && |replies| > 0
    && var w := PageWindow(c, tradesFrom, Some(tradesTo)).0;
    && replies[0].Page? && replies[0].statusCode == 200
    && |replies[0].data| == w.after - w.before - 1
    && (forall i :: 0 <= i < |replies[0].data| ==> replies[0].data[i].tradeId == w.after - 1 - i)
    && (PageWindow(c, tradesFrom, Some(tradesTo)).1 ==> ServedInFull(c, tradesFrom + c.apiLimit, tradesTo, replies[1..]))
  }

  /** A page served in full, pushed without a stop predicate, yields its window's ids in increasing order. */
  lemma PageYieldsWindow(data: seq<Trade>, w: Window)
    requires |data| == w.after - w.before - 1
    requires forall i :: 0 <= i < |data| ==> data[i].tradeId == w.after - 1 - i
    ensures |Emission(data, None).0| == |data| && IdsFrom(Emission(data, None).0, w.before + 1)
  {
    var out := Emission(data, None).0;
    forall i | 0 <= i < |out|
      ensures out[i].tradeId == w.before + 1 + i
    {
      var j := |data| - 1 - i;
      assert out[i] == data[j];
    }
  }

  lemma IdsFromAppend(a: seq<Trade>, b: seq<Trade>, lo: int)
    requires IdsFrom(a, lo) && IdsFrom(b, lo + |a|)
    ensures IdsFrom(a + b, lo)
  {
    forall i | 0 <= i < |a + b|
      ensures (a + b)[i].tradeId == lo + i
    {
      if i >= |a| {
        assert (a + b)[i] == b[i - |a|];
      }
    }
  }

  /**
   * Streaming from `tradesFrom` up to `tradesTo` against a server that answers
   * every window in full yields every id strictly between the two, each once,
   * in increasing order, and then ends.
   */
  lemma {:induction false} StreamYieldsConsecutiveIds(c: Client, tradesFrom: int, tradesTo: int,
                                                      replies: seq<PageReply>)
    requires c.apiLimit > 0 && tradesTo != 0 && tradesFrom < tradesTo
    requires ServedInFull(c, tradesFrom, tradesTo, replies)
    ensures var r := FetchTrades(c, tradesFrom, Some(tradesTo), None, replies);
      && r.end == Ended
      && |r.emitted| == tradesTo - tradesFrom - 1
      && IdsFrom(r.emitted, tradesFrom + 1)
    decreases |replies|
  {
    var page := PageWindow(c, tradesFrom, Some(tradesTo));
    var w := page.0;
    var out := Emission(replies[0].data, None).0;
    var r := FetchTrades(c, tradesFrom, Some(tradesTo), None, replies);
    PageYieldsWindow(replies[0].data, w);
    PageAdvances(c, tradesFrom, Some(tradesTo), None, replies);
    if page.1 {
      var next := FetchTrades(c, tradesFrom + c.apiLimit, Some(tradesTo), None, replies[1..]);
      assert r == StreamResult([w] + next.requests, out + next.emitted, next.end);
      assert |out| == c.apiLimit;
      StreamYieldsConsecutiveIds(c, tradesFrom + c.apiLimit, tradesTo, replies[1..]);
      IdsFromAppend(out, next.emitted, tradesFrom + 1);
    } else {
      assert r == StreamResult([w], out, Ended);
      assert w.after == tradesTo;
    }
  }
}
