/**
  The device listing: pages pulled lazily by following links, through an ownership filter the
  server may honour, ignore or reject with a 400, and filtered again by the caller up to a
  device limit.
 */
module ManagedDevices {
  import opened Sequences
  import opened Wrappers

  datatype Device = Device(id: string, ownerType: string)

  /** The query parameters of a listing's first request, with or without `$filter`; a link carries its own. */
  datatype Params = FirstPage(filter: bool) | NoParams

  datatype Request = Request(url: string, params: Params)

  /** What a request comes to once retries are over. Raised is also a 2xx body that cannot be read. */
  datatype Reply = Raised | Reply(status: int, devices: seq<Device>, next: Option<string>)

  type Server = Request -> Reply

  const MANAGED_DEVICES := "/deviceManagement/managedDevices"

  /** None is a page that could not be read. */
  type Pages = seq<Option<seq<Device>>>

  function First(filter: bool): Request { Request(MANAGED_DEVICES, FirstPage(filter)) }

  predicate Readable(r: Reply) { r.Reply? && 200 <= r.status < 300 }

  predicate HasNext(r: Reply) { r.Reply? && r.next.Some? && r.next.value != "" }

  function Follow(r: Reply): Request
    requires HasNext(r)
  {
    Request(r.next.value, NoParams)
  }

  /** The 400 that is answered by asking again without `$filter`. */
  predicate Rejects(server: Server, request: Request) {
    request.params == FirstPage(true) && server(request).Reply? && server(request).status == 400
  }

  /** The pages of a listing that starts with `request`, up to n of them. */
  function Listing(server: Server, request: Request, n: nat): (pages: Pages)
    ensures |pages| <= n
    decreases n
  {
    if n == 0 then []
    else if !Readable(server(request)) then [None]
    else [Some(server(request).devices)]
         + if HasNext(server(request)) then Listing(server, Follow(server(request)), n - 1) else []
  }

  /** The requests for those pages. */
  function Asked(server: Server, request: Request, n: nat): (asked: seq<Request>)
    ensures |asked| == |Listing(server, request, n)|
    decreases n
  {
    if n == 0 then []
    else if Readable(server(request)) && HasNext(server(request)) then [request] + Asked(server, Follow(server(request)), n - 1)
    else [request]
  }

  /** The listing is over within n pages. */
  predicate Ends(server: Server, request: Request, n: nat)
    decreases n
  {
    n > 0 && (Readable(server(request)) && HasNext(server(request)) ==> Ends(server, Follow(server(request)), n - 1))
  }

  /** The first request whose answer counts: a rejected filter is dropped. */
  function Start(server: Server, filter: bool): Request { First(filter && !Rejects(server, First(true))) }

  predicate IsCorporate(lower: string -> string, d: Device, ownership: string) {
    ownership == "any" || lower(d.ownerType) == ownership
  }

  function Keep(lower: string -> string, ownership: string): Device -> bool {
    (d: Device) => IsCorporate(lower, d, ownership)
  }

  function Concat(pages: Pages): seq<Device> {
    if pages == [] then []
    else Concat(pages[..|pages| - 1]) + (match pages[|pages| - 1] case Some(ds) => ds case None => [])
  }

  predicate AllRead(pages: Pages, n: nat)
    requires n <= |pages|
  {
    forall i | 0 <= i < n :: pages[i].Some?
  }

  function Limited<T>(limit: Option<nat>, xs: seq<T>): seq<T> {
    if limit.Some? && limit.value < |xs| then xs[..limit.value] else xs
  }

  predicate Full(limit: Option<nat>, n: nat) { limit.Some? && n >= limit.value }

  lemma {:induction false} FilterSnoc<T>(xs: seq<T>, n: nat, p: T -> bool)
    requires n < |xs|
    ensures Filter(xs[..n + 1], p) == Filter(xs[..n], p) + (if p(xs[n]) then [xs[n]] else [])
  {
    assert xs[..n + 1] == xs[..n] + [xs[n]];
    FilterConcat(xs[..n], [xs[n]], p);
    assert [xs[n]][1..] == [];
    assert Filter([xs[n]], p) == (if p(xs[n]) then [xs[n]] else []) + [];
  }

  /** One page: keep what matches, and stop in the middle of it once the limit is met. */
  method TakePage(page: seq<Device>, keep: Device -> bool, limit: Option<nat>, kept0: seq<Device>)
    returns (kept: seq<Device>, looked: nat, full: bool)
    requires !Full(limit, |kept0|)
    ensures looked <= |page| && kept == kept0 + Filter(page[..looked], keep)
    ensures full <==> Full(limit, |kept|)
    ensures full ==> |kept| == limit.value && looked > 0 && keep(page[looked - 1])
    ensures !full ==> looked == |page|
  {
    kept, looked, full := kept0, 0, false;
    while looked < |page|
      invariant looked <= |page| && kept == kept0 + Filter(page[..looked], keep) && !Full(limit, |kept|)
    {
      FilterSnoc(page, looked, keep);
      looked := looked + 1;
      if keep(page[looked - 1]) {
        kept := kept + [page[looked - 1]];
        if limit.Some? && |kept| >= limit.value {
          full := true;
          return;
        }
      }
    }
  }

  /** n pages pulled and read whole, the limit not met. */
  ghost predicate SoFar(pages: Pages, n: nat, keep: Device -> bool, limit: Option<nat>, kept: seq<Device>, fetched: nat) {
    && n <= |pages| && AllRead(pages, n) && !Full(limit, |kept|)
    && kept == Filter(Concat(pages[..n]), keep) && fetched == |Concat(pages[..n])|
    && NoneTooMany(pages, n, keep, limit)
  }

  /** The limit was not met before the last page pulled. */
  ghost predicate NoneTooMany(pages: Pages, n: nat, keep: Device -> bool, limit: Option<nat>)
    requires n <= |pages|
  {
    n > 0 ==> !Full(limit, |Filter(Concat(pages[..n - 1]), keep)|)
  }

  /** What is kept is the limit's worth of all that was pulled, and `fetched` devices were looked at for it. */
  ghost predicate Collected(pages: Pages, n: nat, keep: Device -> bool, limit: Option<nat>, kept: seq<Device>, fetched: nat) {
    && n <= |pages| && fetched <= |Concat(pages[..n])|
    && kept == Limited(limit, Filter(Concat(pages[..n]), keep))
    && kept == Filter(Concat(pages[..n])[..fetched], keep)
    && NoneTooMany(pages, n, keep, limit)
  }

  lemma PageTaken(pages: Pages, n: nat, keep: Device -> bool, limit: Option<nat>, kept: seq<Device>, fetched: nat, looked: nat)
    requires SoFar(pages, n, keep, limit, kept, fetched) && n < |pages| && pages[n].Some? && looked <= |pages[n].value|
    ensures var kept' := kept + Filter(pages[n].value[..looked], keep);
            && (limit.Some? && |kept'| == limit.value ==> Collected(pages, n + 1, keep, limit, kept', fetched + looked))
            && (looked == |pages[n].value| && !Full(limit, |kept'|) ==> SoFar(pages, n + 1, keep, limit, kept', fetched + looked))
  {
    var before, page := Concat(pages[..n]), pages[n].value;
    assert pages[..n + 1][..n] == pages[..n];
    assert Concat(pages[..n + 1]) == before + page;
    PrefixOfConcat(before, page, looked, keep);
    FilterPrefix(before, page, looked, keep);
    if looked == |page| { assert page[..looked] == page; }
  }

  lemma PagesDone(pages: Pages, n: nat, keep: Device -> bool, limit: Option<nat>, kept: seq<Device>, fetched: nat)
    requires SoFar(pages, n, keep, limit, kept, fetched)
    ensures Collected(pages, n, keep, limit, kept, fetched)
    ensures n < |pages| && pages[n].None? ==> Collected(pages, n + 1, keep, limit, kept, fetched)
  {
    var all := Concat(pages[..n]);
    assert all[..|all|] == all;
    if n < |pages| { assert pages[..n + 1][..n] == pages[..n]; }
    if n < |pages| && pages[n].None? { assert Concat(pages[..n + 1]) == all; }
  }

  /** Every answer met was a readable page, but for a first one that rejected the filter. */
  predicate AllAnswered(server: Server, requests: seq<Request>) {
    forall i | 0 <= i < |requests| :: Readable(server(requests[i])) || (i == 0 && Rejects(server, requests[0]))
  }

  /** The requests of a collection that pulled n pages: a rejected filter costs one more. */
  function Made(server: Server, filter: bool, bound: nat, n: nat): seq<Request>
    requires n <= |Listing(server, Start(server, filter), bound)|
  {
    (if filter && Rejects(server, First(true)) then [First(true)] else []) + Asked(server, Start(server, filter), bound)[..n]
  }

  /** `request` is the one for the page after the first n; an empty url is the end. */
  ghost predicate NextIs(server: Server, start: Request, bound: nat, n: nat, url: string, request: Request) {
    var pages := Listing(server, start, bound);
    && n <= |pages| && n <= bound
    && (if url == "" then
          n == |pages| && Ends(server, start, bound)
        else
          && pages[n..] == Listing(server, request, bound - n)
          && Asked(server, start, bound)[n..] == Asked(server, request, bound - n)
          && (Ends(server, start, bound) <==> Ends(server, request, bound - n)))
  }

  lemma StepAlong(server: Server, start: Request, bound: nat, n: nat, url: string, request: Request)
    requires url != "" && NextIs(server, start, bound, n, url, request) && n < bound
    ensures var pages, r := Listing(server, start, bound), server(request);
            && n < |pages| && Asked(server, start, bound)[n] == request
            && (if !Readable(r) then pages[n] == None
                else
                  && pages[n] == Some(r.devices)
                  && (if HasNext(r) then NextIs(server, start, bound, n + 1, r.next.value, Follow(r))
                      else NextIs(server, start, bound, n + 1, "", request)))
  {
    var pages, asked, r := Listing(server, start, bound), Asked(server, start, bound), server(request);
    assert pages[n..][0] == pages[n] && asked[n..][0] == asked[n];
    assert pages[n..][1..] == pages[n + 1..] && asked[n..][1..] == asked[n + 1..];
  }

  /** What a collection makes of a listing; when ok is false, its last page could not be read. */
  ghost predicate Outcome(server: Server, filter: bool, keep: Device -> bool, limit: Option<nat>, bound: nat,
                          ok: bool, kept: seq<Device>, fetched: nat, requests: seq<Request>, pulled: nat)
  {
    var pages := Listing(server, Start(server, filter), bound);
    && Collected(pages, pulled, keep, limit, kept, fetched)
    && requests == Made(server, filter, bound, pulled)
    && (ok ==> AllRead(pages, pulled) && (Full(limit, |kept|) || (pulled == |pages| && Ends(server, Start(server, filter), bound))))
    && (!ok ==> pulled > 0 && pages[pulled - 1].None? && !Full(limit, |kept|))
  }

  /** The listing is over within `bound` pages, or they meet the limit. */
  ghost predicate Stops(server: Server, filter: bool, keep: Device -> bool, limit: Option<nat>, bound: nat) {
    var start := Start(server, filter);
    Ends(server, start, bound) || Full(limit, |Filter(Concat(Listing(server, start, bound)), keep)|)
  }

  /** One page asked for, once more without the filter where a first request has it rejected. */
  predicate AnswersRequest(server: Server, url: string, params: Params, firstRequest: bool, reply: Reply, requests: seq<Request>) {
    && requests == [Request(url, params)]
                   + (if firstRequest && Rejects(server, Request(url, params)) then [Request(url, FirstPage(false))] else [])
    && reply == server(requests[|requests| - 1])
  }

  /** A page request; a first one that rejects the filter is made again without it. */
  method RequestPage(server: Server, url: string, params: Params, firstRequest: bool)
    returns (reply: Reply, requests: seq<Request>)
    ensures AnswersRequest(server, url, params, firstRequest, reply, requests)
  {
    var serverFilter := params == FirstPage(true);
    reply, requests := server(Request(url, params)), [Request(url, params)];
    if firstRequest && reply.Reply? && reply.status == 400 && serverFilter {
      reply, requests := server(Request(url, FirstPage(false))), requests + [Request(url, FirstPage(false))];
    }
  }

  /** Where a collection stands before its next page: url "" when the listing is over. */
  ghost predicate Standing(server: Server, filter: bool, bound: nat, n: nat, url: string, params: Params, requests: seq<Request>) {
    && n <= |Listing(server, Start(server, filter), bound)|
    && (if n == 0 then url == MANAGED_DEVICES && params == FirstPage(filter) && requests == []
        else params == NoParams && requests == Made(server, filter, bound, n))
    && NextIs(server, Start(server, filter), bound, n, url, if n == 0 then Start(server, filter) else Request(url, params))
  }

  /** One request of a standing collection: the next page of the listing, or its failure. */
  lemma PageMeans(server: Server, filter: bool, bound: nat, n: nat, url: string, params: Params, before: seq<Request>,
                  reply: Reply, requests: seq<Request>)
    requires Standing(server, filter, bound, n, url, params, before) && url != "" && n < bound
    requires AnswersRequest(server, url, params, n == 0, reply, requests)
    ensures var pages := Listing(server, Start(server, filter), bound);
            && n < |pages| && pages[n] == (if Readable(reply) then Some(reply.devices) else None)
            && before + requests == Made(server, filter, bound, n + 1)
            && (Readable(reply) ==>
                  Standing(server, filter, bound, n + 1, if HasNext(reply) then reply.next.value else "", NoParams, before + requests))
  {
    var start := Start(server, filter);
    var asked := Asked(server, start, bound);
    var request, all := if n == 0 then start else Request(url, params), before + requests;
    StepAlong(server, start, bound, n, url, request);
    assert asked[..n + 1] == asked[..n] + [request];
    assert requests[|requests| - 1] == request;
    assert all == Made(server, filter, bound, n + 1);
  }

  /**
    Follow the listing until the limit is met or it is over. `bound` only says that one of the
    two happens: a listing may be endless when the limit is met. ok is false where a page that
    was needed could not be read.
   */
  method CollectDevices(server: Server, lower: string -> string, ownership: string, serverSideFilter: bool,
                        limit: Option<nat>, ghost bound: nat)
    returns (ok: bool, kept: seq<Device>, fetched: nat, requests: seq<Request>, pulled: nat)
    requires limit.Some? ==> limit.value > 0
    requires Stops(server, serverSideFilter && ownership != "any", Keep(lower, ownership), limit, bound)
    ensures Outcome(server, serverSideFilter && ownership != "any", Keep(lower, ownership), limit, bound,
                    ok, kept, fetched, requests, pulled)
    ensures ok <==> AllAnswered(server, requests)
  {
    ok, kept, fetched, requests, pulled := FollowListing(server, serverSideFilter && ownership != "any", Keep(lower, ownership), limit, bound);
  }

  method FollowListing(server: Server, filter: bool, keep: Device -> bool, limit: Option<nat>, ghost bound: nat)
    returns (ok: bool, kept: seq<Device>, fetched: nat, requests: seq<Request>, pulled: nat)
    requires limit.Some? ==> limit.value > 0
    requires Stops(server, filter, keep, limit, bound)
    ensures Outcome(server, filter, keep, limit, bound, ok, kept, fetched, requests, pulled)
    ensures ok <==> AllAnswered(server, requests)
  {
    var params, url := FirstPage(filter), MANAGED_DEVICES;
    ok, kept, fetched, requests, pulled := true, [], 0, [], 0;
    while url != ""
      invariant ok && Underway(server, filter, keep, limit, bound, url, params, kept, fetched, requests, pulled)
      decreases bound - pulled
    {
      var more;
      more, ok, url, kept, fetched, requests := OnePage(server, filter, keep, limit, bound, url, params, kept, fetched, requests, pulled);
      params, pulled := NoParams, pulled + 1;
      if !more {
        return;
      }
    }
    ListingOver(server, filter, keep, limit, bound, params, kept, fetched, requests, pulled);
  }

  /** One page, asked for and kept from; more is false where the collection is over, by the limit or by a failure. */
  method OnePage(server: Server, ghost filter: bool, keep: Device -> bool, limit: Option<nat>, ghost bound: nat, url0: string, params: Params,
                 kept0: seq<Device>, fetched0: nat, requests0: seq<Request>, pulled: nat)
    returns (more: bool, ok: bool, url: string, kept: seq<Device>, fetched: nat, requests: seq<Request>)
    requires Underway(server, filter, keep, limit, bound, url0, params, kept0, fetched0, requests0, pulled) && url0 != ""
    ensures pulled < bound
    ensures more ==> ok && Underway(server, filter, keep, limit, bound, url, NoParams, kept, fetched, requests, pulled + 1)
    ensures !more ==> Outcome(server, filter, keep, limit, bound, ok, kept, fetched, requests, pulled + 1)
                      && (ok <==> AllAnswered(server, requests))
  {
    var reply;
    reply, requests := PullPage(server, filter, keep, limit, bound, url0, params, kept0, fetched0, requests0, pulled);
    if !Readable(reply) {
      return false, false, "", kept0, fetched0, requests;
    }
    var full;
    kept, fetched, full := KeepPage(server, filter, keep, limit, bound, kept0, fetched0, requests, pulled, reply);
    more, ok, url := !full, true, if HasNext(reply) then reply.next.value else "";
  }

  /** Ask for the next page: it is in hand, or the collection has failed. */
  method PullPage(server: Server, ghost filter: bool, ghost keep: Device -> bool, ghost limit: Option<nat>, ghost bound: nat,
                  url: string, params: Params, ghost kept: seq<Device>, ghost fetched: nat, requests0: seq<Request>, pulled: nat)
    returns (reply: Reply, requests: seq<Request>)
    requires Underway(server, filter, keep, limit, bound, url, params, kept, fetched, requests0, pulled) && url != ""
    ensures pulled < bound
    ensures if Readable(reply) then PageIn(server, filter, keep, limit, bound, kept, fetched, requests, pulled, reply)
            else Outcome(server, filter, keep, limit, bound, false, kept, fetched, requests, pulled + 1) && !AllAnswered(server, requests)
  {
    var more;
    reply, more := RequestPage(server, url, params, pulled == 0);
    requests := requests0 + more;
    NotYetBound(server, Start(server, filter), bound, pulled, url, params, keep, limit, kept, fetched);
    if Readable(reply) {
      NextPageIn(server, filter, keep, limit, bound, url, params, kept, fetched, requests0, pulled, reply, more);
    } else {
      NextPageFails(server, filter, keep, limit, bound, url, params, kept, fetched, requests0, pulled, reply, more);
    }
  }

  /** A collection before its next page. */
  ghost predicate Underway(server: Server, filter: bool, keep: Device -> bool, limit: Option<nat>, bound: nat, url: string, params: Params,
                           kept: seq<Device>, fetched: nat, requests: seq<Request>, pulled: nat)
  {
    && Stops(server, filter, keep, limit, bound)
    && SoFar(Listing(server, Start(server, filter), bound), pulled, keep, limit, kept, fetched)
    && Standing(server, filter, bound, pulled, url, params, requests)
  }

  /** The page asked for was readable, and the others were before it. */
  ghost predicate PageIn(server: Server, filter: bool, keep: Device -> bool, limit: Option<nat>, bound: nat, kept: seq<Device>, fetched: nat,
                         requests: seq<Request>, pulled: nat, reply: Reply)
  {
    var pages := Listing(server, Start(server, filter), bound);
    && Stops(server, filter, keep, limit, bound) && SoFar(pages, pulled, keep, limit, kept, fetched)
    && pulled < |pages| && Readable(reply) && pages[pulled] == Some(reply.devices)
    && requests == Made(server, filter, bound, pulled + 1)
    && Standing(server, filter, bound, pulled + 1, if HasNext(reply) then reply.next.value else "", NoParams, requests)
  }

  lemma NextPageIn(server: Server, filter: bool, keep: Device -> bool, limit: Option<nat>, bound: nat, url: string, params: Params,
                   kept: seq<Device>, fetched: nat, before: seq<Request>, pulled: nat, reply: Reply, requests: seq<Request>)
    requires Underway(server, filter, keep, limit, bound, url, params, kept, fetched, before, pulled) && url != "" && pulled < bound
    requires AnswersRequest(server, url, params, pulled == 0, reply, requests) && Readable(reply)
    ensures PageIn(server, filter, keep, limit, bound, kept, fetched, before + requests, pulled, reply)
  {
    PageMeans(server, filter, bound, pulled, url, params, before, reply, requests);
  }

  lemma NextPageFails(server: Server, filter: bool, keep: Device -> bool, limit: Option<nat>, bound: nat, url: string, params: Params,
                      kept: seq<Device>, fetched: nat, before: seq<Request>, pulled: nat, reply: Reply, requests: seq<Request>)
    requires Underway(server, filter, keep, limit, bound, url, params, kept, fetched, before, pulled) && url != "" && pulled < bound
    requires AnswersRequest(server, url, params, pulled == 0, reply, requests) && !Readable(reply)
    ensures Outcome(server, filter, keep, limit, bound, false, kept, fetched, before + requests, pulled + 1)
    ensures !AllAnswered(server, before + requests)
  {
    PagesDone(Listing(server, Start(server, filter), bound), pulled, keep, limit, kept, fetched);
    PageMeans(server, filter, bound, pulled, url, params, before, reply, requests);
    AnsweredIffRead(server, filter, bound, pulled + 1);
  }

  lemma LimitMet(server: Server, filter: bool, keep: Device -> bool, limit: Option<nat>, bound: nat, kept: seq<Device>, fetched: nat,
                 requests: seq<Request>, pulled: nat, reply: Reply, looked: nat, kept': seq<Device>)
    requires PageIn(server, filter, keep, limit, bound, kept, fetched, requests, pulled, reply) && looked <= |reply.devices|
    requires kept' == kept + Filter(reply.devices[..looked], keep) && limit.Some? && |kept'| == limit.value
    ensures Outcome(server, filter, keep, limit, bound, true, kept', fetched + looked, requests, pulled + 1)
    ensures AllAnswered(server, requests)
  {
    PageTaken(Listing(server, Start(server, filter), bound), pulled, keep, limit, kept, fetched, looked);
    AnsweredIffRead(server, filter, bound, pulled + 1);
  }

  lemma PageKept(server: Server, filter: bool, keep: Device -> bool, limit: Option<nat>, bound: nat, kept: seq<Device>, fetched: nat,
                 requests: seq<Request>, pulled: nat, reply: Reply, kept': seq<Device>)
    requires PageIn(server, filter, keep, limit, bound, kept, fetched, requests, pulled, reply)
    requires kept' == kept + Filter(reply.devices, keep) && !Full(limit, |kept'|)
    ensures Underway(server, filter, keep, limit, bound, if HasNext(reply) then reply.next.value else "", NoParams,
                     kept', fetched + |reply.devices|, requests, pulled + 1)
  {
    assert reply.devices[..|reply.devices|] == reply.devices;
    PageTaken(Listing(server, Start(server, filter), bound), pulled, keep, limit, kept, fetched, |reply.devices|);
  }

  /** A page in hand: keep what matches, as far as the limit allows. */
  method KeepPage(ghost server: Server, ghost filter: bool, keep: Device -> bool, limit: Option<nat>, ghost bound: nat,
                  kept0: seq<Device>, fetched0: nat, ghost requests: seq<Request>, ghost pulled: nat, reply: Reply)
    returns (kept: seq<Device>, fetched: nat, full: bool)
    requires PageIn(server, filter, keep, limit, bound, kept0, fetched0, requests, pulled, reply)
    ensures if full then
              Outcome(server, filter, keep, limit, bound, true, kept, fetched, requests, pulled + 1) && AllAnswered(server, requests)
            else
              Underway(server, filter, keep, limit, bound, if HasNext(reply) then reply.next.value else "", NoParams,
                       kept, fetched, requests, pulled + 1)
  {
    var looked;
    kept, looked, full := TakePage(reply.devices, keep, limit, kept0);
    fetched := fetched0 + looked;
    if full {
      LimitMet(server, filter, keep, limit, bound, kept0, fetched0, requests, pulled, reply, looked, kept);
    } else {
      assert reply.devices[..looked] == reply.devices;
      PageKept(server, filter, keep, limit, bound, kept0, fetched0, requests, pulled, reply, kept);
    }
  }

  lemma ListingOver(server: Server, filter: bool, keep: Device -> bool, limit: Option<nat>, bound: nat, params: Params,
                    kept: seq<Device>, fetched: nat, requests: seq<Request>, pulled: nat)
    requires Underway(server, filter, keep, limit, bound, "", params, kept, fetched, requests, pulled)
    ensures Outcome(server, filter, keep, limit, bound, true, kept, fetched, requests, pulled)
    ensures AllAnswered(server, requests)
  {
    PagesDone(Listing(server, Start(server, filter), bound), pulled, keep, limit, kept, fetched);
    AnsweredIffRead(server, filter, bound, pulled);
  }

  lemma {:induction false} ReadIffReadable(server: Server, request: Request, bound: nat, i: nat)
    requires i < |Listing(server, request, bound)|
    ensures Listing(server, request, bound)[i].Some? <==> Readable(server(Asked(server, request, bound)[i]))
    decreases i
  {
    if i > 0 { ReadIffReadable(server, Follow(server(request)), bound - 1, i - 1); }
  }

  /** In the status itself: a 2xx is a page; a 400 is forgiven once, to a first request that carried the filter. */
  lemma AnsweredMeans(server: Server, requests: seq<Request>)
    ensures AllAnswered(server, requests) <==>
              forall i | 0 <= i < |requests| ::
                && server(requests[i]).Reply?
                && (200 <= server(requests[i]).status < 300
                    || (i == 0 && requests[0].params == FirstPage(true) && server(requests[0]).status == 400))
  {}

  /** A listing fails on its first answer that is no readable page; only a rejected filter is forgiven. */
  lemma AnsweredIffRead(server: Server, filter: bool, bound: nat, n: nat)
    requires n <= |Listing(server, Start(server, filter), bound)|
    ensures AllAnswered(server, Made(server, filter, bound, n)) <==> AllRead(Listing(server, Start(server, filter), bound), n)
  {
    var start := Start(server, filter);
    var pages, asked, made := Listing(server, start, bound), Asked(server, start, bound), Made(server, filter, bound, n);
    var k := |made| - n;
    assert forall i | 0 <= i < n :: made[k + i] == asked[i];
    forall i | 0 <= i < n ensures pages[i].Some? <==> Readable(server(made[k + i])) {
      ReadIffReadable(server, start, bound, i);
    }
    assert n > 0 ==> asked[0] == start && !Rejects(server, start);
    forall j | k <= j < |made| ensures made[j] == asked[j - k] && (pages[j - k].Some? <==> Readable(server(made[j]))) {}
  }

  /** With a page still to come and the limit not met, the bound is not reached. */
  lemma NotYetBound(server: Server, start: Request, bound: nat, n: nat, url: string, params: Params,
                    keep: Device -> bool, limit: Option<nat>, kept: seq<Device>, fetched: nat)
    requires url != "" && SoFar(Listing(server, start, bound), n, keep, limit, kept, fetched)
    requires NextIs(server, start, bound, n, url, if n == 0 then start else Request(url, params))
    requires Ends(server, start, bound) || Full(limit, |Filter(Concat(Listing(server, start, bound)), keep)|)
    ensures n < bound
  {
    var pages := Listing(server, start, bound);
    assert pages[..|pages|] == pages;
  }

  lemma PrefixOfConcat(before: seq<Device>, page: seq<Device>, looked: nat, keep: Device -> bool)
    requires looked <= |page|
    ensures (before + page)[..|before| + looked] == before + page[..looked]
    ensures Filter(before + page[..looked], keep) == Filter(before, keep) + Filter(page[..looked], keep)
  {
    FilterConcat(before, page[..looked], keep);
  }

  lemma FilterPrefix(before: seq<Device>, page: seq<Device>, looked: nat, keep: Device -> bool)
    requires looked <= |page|
    ensures Filter(before + page[..looked], keep) <= Filter(before + page, keep)
  {
    var seen := before + page[..looked];
    assert before + page == seen + page[looked..];
    FilterConcat(seen, page[looked..], keep);
  }

  lemma {:induction false} ConcatPrefix(pages: Pages, n: nat)
    requires n <= |pages|
    ensures Concat(pages[..n]) <= Concat(pages)
  {
    if n < |pages| {
      ConcatPrefix(pages[..|pages| - 1], n);
      assert pages[..|pages| - 1][..n] == pages[..n];
    } else {
      assert pages[..n] == pages;
    }
  }

  lemma {:induction false} LimitedPrefix<T>(limit: Option<nat>, xs: seq<T>, n: nat, p: T -> bool)
    requires n <= |xs| && (n == |xs| || Full(limit, |Limited(limit, Filter(xs[..n], p))|))
    ensures Limited(limit, Filter(xs[..n], p)) == Limited(limit, Filter(xs, p))
  {
    assert xs == xs[..n] + xs[n..];
    FilterConcat(xs[..n], xs[n..], p);
  }

  lemma {:induction false} OnlyTheLastFails(server: Server, request: Request, bound: nat, i: nat)
    requires i < |Listing(server, request, bound)| && Listing(server, request, bound)[i].None?
    ensures i == |Listing(server, request, bound)| - 1
    decreases i
  {
    if i > 0 { OnlyTheLastFails(server, Follow(server(request)), bound - 1, i - 1); }
  }

  lemma FullStaysFull(pages: Pages, n: nat, m: nat, keep: Device -> bool, limit: Option<nat>)
    requires n <= m <= |pages| && Full(limit, |Filter(Concat(pages[..n]), keep)|)
    ensures Full(limit, |Filter(Concat(pages[..m]), keep)|)
  {
    var later := pages[..m];
    assert later[..n] == pages[..n];
    ConcatPrefix(later, n);
    var a, b := Concat(pages[..n]), Concat(later);
    assert b == a + b[|a|..];
    FilterConcat(a, b[|a|..], keep);
  }

  /** A collection that came to an outcome does not pull another page. */
  lemma PullsNoMore(server: Server, filter: bool, keep: Device -> bool, limit: Option<nat>, bound: nat,
                    ok: bool, kept: seq<Device>, fetched: nat, requests: seq<Request>, pulled: nat, more: nat)
    requires Outcome(server, filter, keep, limit, bound, ok, kept, fetched, requests, pulled)
    requires more <= |Listing(server, Start(server, filter), bound)|
             && NoneTooMany(Listing(server, Start(server, filter), bound), more, keep, limit)
    ensures more <= pulled
  {
    var start := Start(server, filter);
    var pages := Listing(server, start, bound);
    if more > pulled {
      if !ok {
        OnlyTheLastFails(server, start, bound, pulled - 1);
      } else if Full(limit, |kept|) {
        FullStaysFull(pages, pulled, more - 1, keep, limit);
      }
    }
  }

  /**
    After a 400 to the filtered request, everything is as if no filter had been asked for: the
    same pages in the same order, the same devices kept, the same success or failure, one
    request later.
   */
  lemma RejectionCostsOneRequest(server: Server, keep: Device -> bool, limit: Option<nat>, bound: nat,
                                 ok: bool, kept: seq<Device>, fetched: nat, requests: seq<Request>, pulled: nat,
                                 ok': bool, kept': seq<Device>, fetched': nat, requests': seq<Request>, pulled': nat)
    requires Rejects(server, First(true))
    requires Outcome(server, true, keep, limit, bound, ok, kept, fetched, requests, pulled)
    requires Outcome(server, false, keep, limit, bound, ok', kept', fetched', requests', pulled')
    ensures ok == ok' && kept == kept' && pulled == pulled'
    ensures requests == [First(true)] + requests'
  {
    PullsNoMore(server, true, keep, limit, bound, ok, kept, fetched, requests, pulled, pulled');
    PullsNoMore(server, false, keep, limit, bound, ok', kept', fetched', requests', pulled', pulled);
  }

  /** The listing that starts with this request is of these devices, as far as it can be read. */
  ghost predicate Lists(server: Server, request: Request, devices: seq<Device>) {
    forall n: nat ::
      var pages := Listing(server, request, n);
      && Concat(pages) <= devices
      && (Ends(server, request, n) && AllRead(pages, |pages|) ==> Concat(pages) == devices)
  }

  /** The server lists the fleet, and with `$filter` what `passes` of it, unless it rejects the filter. */
  ghost predicate Serves(server: Server, fleet: seq<Device>, passes: Device -> bool) {
    && Lists(server, First(false), fleet)
    && (Rejects(server, First(true)) || Lists(server, First(true), Filter(fleet, passes)))
  }

  /** What a collection that did not fail has kept: the limit's worth of what passes both filters. */
  lemma CollectedOfFleet(server: Server, fleet: seq<Device>, passes: Device -> bool, filter: bool, keep: Device -> bool,
                         limit: Option<nat>, bound: nat, kept: seq<Device>, fetched: nat, requests: seq<Request>, pulled: nat)
    requires Serves(server, fleet, passes)
    requires Outcome(server, filter, keep, limit, bound, true, kept, fetched, requests, pulled)
    ensures kept == Limited(limit, Filter(if Start(server, filter) == First(true) then Filter(fleet, passes) else fleet, keep))
  {
    var start := Start(server, filter);
    var listed := if start == First(true) then Filter(fleet, passes) else fleet;
    var pages := Listing(server, start, bound);
    assert Lists(server, start, listed);
    ConcatPrefix(pages, pulled);
    var n := |Concat(pages[..pulled])|;
    assert listed[..n] == Concat(pages[..pulled]);
    if pulled == |pages| { assert pages[..pulled] == pages; }
    LimitedPrefix(limit, listed, n, keep);
  }

  /**
    Whatever the server does with the filter - honour it, ignore it (passes is true of all) or
    reject it - and however it cuts the listing into pages: when the filter passes what the
    ownership check keeps, a collection that does not fail is the first `limit` devices, in
    order, that the check keeps of the whole fleet.
   */
  lemma OwnershipIsServerIndependent(server: Server, fleet: seq<Device>, passes: Device -> bool, filter: bool,
                                     lower: string -> string, ownership: string, limit: Option<nat>, bound: nat,
                                     kept: seq<Device>, fetched: nat, requests: seq<Request>, pulled: nat)
    requires Serves(server, fleet, passes)
    requires forall d | d in fleet && (ownership == "any" || lower(d.ownerType) == ownership) :: passes(d)
    requires Outcome(server, filter, Keep(lower, ownership), limit, bound, true, kept, fetched, requests, pulled)
    ensures var whole := Filter(fleet, (d: Device) => ownership == "any" || lower(d.ownerType) == ownership);
            kept == if limit.Some? && limit.value < |whole| then whole[..limit.value] else whole
  {
    CollectedOfFleet(server, fleet, passes, filter, Keep(lower, ownership), limit, bound, kept, fetched, requests, pulled);
    FilterTwice(fleet, passes, Keep(lower, ownership));
    FilterSame(fleet, Keep(lower, ownership), (d: Device) => ownership == "any" || lower(d.ownerType) == ownership);
  }

  /** Filtering first by another predicate loses nothing exactly when that passes all that is kept. */
  lemma {:induction false} FilterTwice<T>(xs: seq<T>, passes: T -> bool, keep: T -> bool)
    ensures |Filter(Filter(xs, passes), keep)| <= |Filter(xs, keep)|
    ensures Filter(Filter(xs, passes), keep) == Filter(xs, keep) <==> forall x | x in xs && keep(x) :: passes(x)
  {
    if xs != [] {
      var x, rest, kept := xs[0], Filter(xs[1..], passes), Filter(xs[1..], keep);
      FilterTwice(xs[1..], passes, keep);
      assert xs == [x] + xs[1..];
      assert ([x] + rest)[1..] == rest;
      assert Filter(xs, passes) == if passes(x) then [x] + rest else rest;
      var twice := Filter(rest, keep);
      assert Filter(Filter(xs, passes), keep) == if passes(x) && keep(x) then [x] + twice else twice;
      assert Filter(xs, keep) == if keep(x) then [x] + kept else kept;
      assert ([x] + twice)[1..] == twice && ([x] + kept)[1..] == kept;
    }
  }

  /** Every collection of this listing that does not fail keeps the first `limit` devices of the fleet that it should. */
  ghost predicate AlwaysRight(server: Server, fleet: seq<Device>, filter: bool, keep: Device -> bool, bound: nat) {
    forall limit: Option<nat>, kept, fetched, requests, pulled
      | Outcome(server, filter, keep, limit, bound, true, kept, fetched, requests, pulled) :: kept == Limited(limit, Filter(fleet, keep))
  }

  /** Without a limit a listing that can be read is kept whole, as far as `keep` goes. */
  lemma WholeListing(server: Server, filter: bool, keep: Device -> bool, bound: nat)
    requires var pages := Listing(server, Start(server, filter), bound);
             Ends(server, Start(server, filter), bound) && AllRead(pages, |pages|)
    ensures var pages := Listing(server, Start(server, filter), bound);
            Outcome(server, filter, keep, None, bound, true, Filter(Concat(pages), keep), |Concat(pages)|,
                    Made(server, filter, bound, |pages|), |pages|)
  {
    var pages := Listing(server, Start(server, filter), bound);
    assert pages[..|pages|] == pages;
    PagesDone(pages, |pages|, keep, None, Filter(Concat(pages), keep), |Concat(pages)|);
  }

  /**
    Whatever the limit, the collections of a readable listing are right exactly when the
    filter is not in effect, or passes every device of this fleet that the ownership check keeps.
   */
  lemma FilterIsSafeIff(server: Server, fleet: seq<Device>, passes: Device -> bool, filter: bool, keep: Device -> bool, bound: nat)
    requires Serves(server, fleet, passes)
    requires var pages := Listing(server, Start(server, filter), bound);
             Ends(server, Start(server, filter), bound) && AllRead(pages, |pages|)
    ensures AlwaysRight(server, fleet, filter, keep, bound)
            <==> Start(server, filter) != First(true) || forall d | d in fleet && keep(d) :: passes(d)
  {
    FilterTwice(fleet, passes, keep);
    var pages := Listing(server, Start(server, filter), bound);
    forall limit: Option<nat>, kept, fetched, requests, pulled
      | Outcome(server, filter, keep, limit, bound, true, kept, fetched, requests, pulled)
      ensures kept == Limited(limit, Filter(if Start(server, filter) == First(true) then Filter(fleet, passes) else fleet, keep))
    {
      CollectedOfFleet(server, fleet, passes, filter, keep, limit, bound, kept, fetched, requests, pulled);
    }
    WholeListing(server, filter, keep, bound);
    assert AlwaysRight(server, fleet, filter, keep, bound) ==>
        Filter(Concat(pages), keep) == Limited(None, Filter(fleet, keep)) == Filter(fleet, keep);
  }
  /**
    The filter as sent compares the owner type as spelled; the ownership check folds it first.
    A server that takes the filter at its word drops the device the check would keep.
   */
  lemma SpellingIsLost(lower: string -> string)
    requires lower("Company") == "company"
    ensures var fleet, passes := [Device("1", "Company")], (d: Device) => d.ownerType == "company";
            && Filter(Filter(fleet, passes), Keep(lower, "company")) == []
            && Filter(fleet, Keep(lower, "company")) == fleet
  {
    var fleet := [Device("1", "Company")];
    assert "Company"[0] != "company"[0];
    assert fleet[1..] == [];
  }
}
