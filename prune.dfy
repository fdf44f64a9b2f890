/** The prune rule of `RemoveBrokenSubscriptions` (main.go:67-100): fetch the
    subscription list, probe every feed once, and delete the subscriptions
    whose feed is unreachable or answers with a dead status. Only a failed
    fetch ends the run with an error; everything else is logged and the loop
    goes on. */
module Prune {
  import opened Util
  import opened Decimal
  import opened Api

  /** What the unauthenticated GET of a feed URL produced (main.go:74):
      an error, a nil response without error, or a response with a status. */
  datatype ProbeReply = ProbeFailed | ProbeNil | ProbeStatus(code: int)

  datatype Disposition = Remove | Keep | Warn

  /** 404 Not Found, 406 Not Acceptable, 403 Forbidden, 401 Unauthorized. */
  const DeadStatuses: set<int> := {404, 406, 403, 401}
  /** 200 OK, 202 Accepted, 206 Partial Content. */
  const LiveStatuses: set<int> := {200, 202, 206}

  /** The decision table of main.go:75-97. */
  function Classify(p: ProbeReply): (d: Disposition)
    ensures d == Remove <==> p.ProbeFailed? || (p.ProbeStatus? && p.code in DeadStatuses)
    ensures d == Keep <==> p.ProbeStatus? && p.code in LiveStatuses
    ensures d == Warn <==> p.ProbeNil? || (p.ProbeStatus? && p.code !in DeadStatuses + LiveStatuses)
  {
    match p
    case ProbeFailed => Remove
    case ProbeNil => Warn
    case ProbeStatus(code) =>
      if code in DeadStatuses then Remove
      else if code in LiveStatuses then Keep
      else Warn
  }

  /** The lines written to the log, plus the removal attempts themselves. */
  datatype Event =
    | CouldNotGet(feedUrl: string)                  // probe error, removing (main.go:76)
    | DeadResponse(feedUrl: string, status: int)    // dead status, removing (main.go:89)
    | RemoveAttempt(id: int)                        // RemoveSubscription called (main.go:77, 90)
    | RemoveFailed(feedUrl: string, err: Error)     // main.go:79, 92
    | NilResponse(feedUrl: string)                  // main.go:84
    | UnexpectedStatus(feedUrl: string, status: int) // main.go:96

  /** Everything one stretch of the run did: its log and its client calls. */
  datatype Effects = Effects(log: seq<Event>, calls: seq<Request>)

  function ProbeRequest(feedUrl: string): Request {
    Request(Get, feedUrl, None)
  }

  /** The log line announcing a removal, by what the probe saw. */
  function RemovalNotice(feedUrl: string, p: ProbeReply): Event {
    if p.ProbeStatus? then DeadResponse(feedUrl, p.code) else CouldNotGet(feedUrl)
  }

  /** The warning line, by what the probe saw. */
  function Warning(feedUrl: string, p: ProbeReply): Event {
    if p.ProbeStatus? then UnexpectedStatus(feedUrl, p.code) else NilResponse(feedUrl)
  }

  function FailureLog(feedUrl: string, err: Option<Error>): seq<Event> {
    if err.Some? then [RemoveFailed(feedUrl, err.value)] else []
  }

  /** What handling one subscription does, stated by its disposition. */
  function Handle(cred: Credentials, sub: Subscription, p: ProbeReply, d: DeleteReply): (h: Effects) {
    var probe := [ProbeRequest(sub.feedUrl)];
    match Classify(p)
    case Keep => Effects([], probe)
    case Warn => Effects([Warning(sub.feedUrl, p)], probe)
    case Remove =>
      var rm := RemoveSubscription(cred, sub, d);
      Effects([RemovalNotice(sub.feedUrl, p), RemoveAttempt(sub.id)] + FailureLog(sub.feedUrl, rm.err),
              probe + rm.calls)
  }

  /** The loop over `subs`, where the i-th probe gets `probe(i)` and a DELETE
      sent while handling the i-th subscription gets `delete(i)`. */
  function Run(cred: Credentials, subs: seq<Subscription>, probe: nat -> ProbeReply,
               delete: nat -> DeleteReply): (e: Effects)
  {
    if subs == [] then Effects([], [])
    else
      var n := |subs| - 1;
      var before := Run(cred, subs[..n], probe, delete);
      var last := Handle(cred, subs[n], probe(n), delete(n));
      Effects(before.log + last.log, before.calls + last.calls)
  }

  /** `RemoveBrokenSubscriptions` (main.go:67-100). `list` is how the list
      call went; `err` is the function's result, `log` what it wrote and
      `calls` the calls it made into the HTTP client. */
  method RemoveBrokenSubscriptions(cred: Credentials, list: ListReply, probe: nat -> ProbeReply,
                                   delete: nat -> DeleteReply)
    returns (err: Option<Error>, log: seq<Event>, calls: seq<Request>)
    ensures var fetched := GetSubscriptions(cred, list);
            fetched.err.Some? ==> err == fetched.err && log == [] && calls == fetched.calls
    ensures var fetched := GetSubscriptions(cred, list);
            var run := Run(cred, fetched.subs, probe, delete);
            fetched.err.None? ==> err == None && log == run.log && calls == fetched.calls + run.calls
  {
    var fetched := GetSubscriptions(cred, list);
    calls := fetched.calls;
    log := [];
    if fetched.err.Some? {
      return fetched.err, log, calls;
    }
    var subs := fetched.subs;
    var i := 0;
    while i < |subs|
      invariant 0 <= i <= |subs|
      invariant log == Run(cred, subs[..i], probe, delete).log
      invariant calls == fetched.calls + Run(cred, subs[..i], probe, delete).calls
    {
      var stepLog, stepCalls := HandleSubscription(cred, subs[i], probe(i), delete(i));
      RunStep(cred, subs, i, probe, delete);
      log := log + stepLog;
      calls := calls + stepCalls;
      i := i + 1;
    }
    assert subs[..i] == subs;
    err := None;
  }

  /** The body of the loop (main.go:74-97): probe, branch on the reply as the
      source does, and call `RemoveSubscription` where it does. It does what
      `Handle` says the subscription's disposition calls for. */
  method HandleSubscription(cred: Credentials, sub: Subscription, reply: ProbeReply, del: DeleteReply)
    returns (log: seq<Event>, calls: seq<Request>)
    ensures Effects(log, calls) == Handle(cred, sub, reply, del)
  {
    log := [];
    calls := [ProbeRequest(sub.feedUrl)];
    match reply {
      case ProbeFailed =>
        log := [CouldNotGet(sub.feedUrl), RemoveAttempt(sub.id)];
        var rm := RemoveSubscription(cred, sub, del);
        calls := calls + rm.calls;
        if rm.err.Some? {
          log := log + [RemoveFailed(sub.feedUrl, rm.err.value)];
        }
      case ProbeNil =>
        log := [NilResponse(sub.feedUrl)];
      case ProbeStatus(code) =>
        if code == 404 || code == 406 || code == 403 || code == 401 {
          log := [DeadResponse(sub.feedUrl, code), RemoveAttempt(sub.id)];
          var rm := RemoveSubscription(cred, sub, del);
          calls := calls + rm.calls;
          if rm.err.Some? {
            log := log + [RemoveFailed(sub.feedUrl, rm.err.value)];
          }
        } else if code == 200 || code == 202 || code == 206 {
        } else {
          log := [UnexpectedStatus(sub.feedUrl, code)];
        }
    }
  }

  /** The run over one more subscription is the run so far followed by that
      subscription's handling. */
  lemma RunStep(cred: Credentials, subs: seq<Subscription>, i: nat, probe: nat -> ProbeReply,
                delete: nat -> DeleteReply)
    requires i < |subs|
    ensures var before := Run(cred, subs[..i], probe, delete);
            var h := Handle(cred, subs[i], probe(i), delete(i));
            Run(cred, subs[..i + 1], probe, delete) == Effects(before.log + h.log, before.calls + h.calls)
  {
    assert subs[..i + 1][..i] == subs[..i];
  }

  // ---------------------------------------------------------------------
  // What the run does, read off its effects.

  function AttemptedId(e: Event): Option<int> {
    if e.RemoveAttempt? then Some(e.id) else None
  }

  function WarnedUrl(e: Event): Option<string> {
    match e
    case NilResponse(u) => Some(u)
    case UnexpectedStatus(u, _) => Some(u)
    case _ => None
  }

  function FailedRemoval(e: Event): Option<string> {
    if e.RemoveFailed? then Some(e.feedUrl) else None
  }

  function ProbedUrl(r: Request): Option<string> {
    if r.verb == Get && r.auth.None? then Some(r.url) else None
  }

  function DeletedUrl(r: Request): Option<string> {
    if r.verb == Delete then Some(r.url) else None
  }

  /** Ids of the subscriptions a removal is attempted for, in log order. */
  function Attempts(log: seq<Event>): seq<int> { Collect(log, AttemptedId) }

  /** Feed URLs the log warns about, in log order. */
  function Warnings(log: seq<Event>): seq<string> { Collect(log, WarnedUrl) }

  /** Feed URLs the log reports a failed removal for. */
  function Failures(log: seq<Event>): seq<string> { Collect(log, FailedRemoval) }

  /** Targets of the unauthenticated GETs (the feed probes), in order. */
  function Probes(calls: seq<Request>): seq<string> { Collect(calls, ProbedUrl) }

  /** Targets of the DELETE calls, in order. */
  function Deletes(calls: seq<Request>): seq<string> { Collect(calls, DeletedUrl) }

  // ---------------------------------------------------------------------
  // Reference definitions, from the classifier alone.

  /** Ids of the subscriptions whose probe says Remove, in list order. */
  function Doomed(subs: seq<Subscription>, probe: nat -> ProbeReply): (ids: seq<int>) {
    if subs == [] then []
    else
      var n := |subs| - 1;
      Doomed(subs[..n], probe) + (if Classify(probe(n)) == Remove then [subs[n].id] else [])
  }

  /** Feed URLs of the subscriptions whose probe says Warn, in list order. */
  function Doubtful(subs: seq<Subscription>, probe: nat -> ProbeReply): (urls: seq<string>) {
    if subs == [] then []
    else
      var n := |subs| - 1;
      Doubtful(subs[..n], probe) + (if Classify(probe(n)) == Warn then [subs[n].feedUrl] else [])
  }

  function FeedUrls(subs: seq<Subscription>): (urls: seq<string>) {
    if subs == [] then [] else FeedUrls(subs[..|subs| - 1]) + [subs[|subs| - 1].feedUrl]
  }

  /** Delete targets of the subscriptions whose probe says Remove and whose
      delete request is not rejected before sending, in list order. */
  function DoomedTargets(cred: Credentials, subs: seq<Subscription>, probe: nat -> ProbeReply,
                         delete: nat -> DeleteReply): (urls: seq<string>)
  {
    if subs == [] then []
    else
      var n := |subs| - 1;
      DoomedTargets(cred, subs[..n], probe, delete)
        + (if Classify(probe(n)) == Remove && !delete(n).DeleteRequestRejected?
           then [DeleteUrl(cred.baseUrl, subs[n].id)] else [])
  }

  /** The loop shifted by `k` positions: what the subscriptions after the
      first `k` see. */
  function ShiftProbe(probe: nat -> ProbeReply, k: nat): (shifted: nat -> ProbeReply) {
    (i: nat) => probe(k + i)
  }

  function ShiftDelete(delete: nat -> DeleteReply, k: nat): (shifted: nat -> DeleteReply) {
    (i: nat) => delete(k + i)
  }

  // ---------------------------------------------------------------------
  // One subscription.

  /** Handling one subscription attempts its removal exactly once when the
      probe says Remove, and never otherwise; it warns exactly when the probe
      says Warn; it probes exactly once; and a Keep leaves no log line. */
  lemma HandleByDisposition(cred: Credentials, sub: Subscription, p: ProbeReply, d: DeleteReply)
    ensures var h := Handle(cred, sub, p, d);
            && Attempts(h.log) == (if Classify(p) == Remove then [sub.id] else [])
            && Warnings(h.log) == (if Classify(p) == Warn then [sub.feedUrl] else [])
            && Probes(h.calls) == [sub.feedUrl]
            && (Classify(p) == Keep ==> h.log == [])
  {
    var h := Handle(cred, sub, p, d);
    var probe := [ProbeRequest(sub.feedUrl)];
    if Classify(p) == Remove {
      var rm := RemoveSubscription(cred, sub, d);
      var head := [RemovalNotice(sub.feedUrl, p), RemoveAttempt(sub.id)];
      var tail := FailureLog(sub.feedUrl, rm.err);
      CollectAppend(head, tail, AttemptedId);
      CollectAppend(head, tail, WarnedUrl);
      CollectAppend(probe, rm.calls, ProbedUrl);
      assert head[1..] == [RemoveAttempt(sub.id)];
      assert Collect(head, WarnedUrl) == [];
      assert Collect(head, AttemptedId) == [sub.id];
    }
  }

  /** The DELETE calls of one subscription: none unless its probe says Remove
      and the run is not a dry run, and then exactly its own delete target
      unless the request is rejected before sending. A failed removal is
      logged once, with the error `RemoveSubscription` returned. */
  lemma HandleDeletes(cred: Credentials, sub: Subscription, p: ProbeReply, d: DeleteReply)
    ensures var h := Handle(cred, sub, p, d);
            && (Classify(p) != Remove || cred.dryRun ==> Deletes(h.calls) == [] && Failures(h.log) == [])
            && (Deletes(h.calls) == [] || Deletes(h.calls) == [DeleteUrl(cred.baseUrl, sub.id)])
    ensures var h := Handle(cred, sub, p, d);
            Classify(p) == Remove && !cred.dryRun && !d.DeleteRequestRejected? ==>
              Deletes(h.calls) == [DeleteUrl(cred.baseUrl, sub.id)]
    ensures var h := Handle(cred, sub, p, d);
            var rm := RemoveSubscription(cred, sub, d);
            Classify(p) == Remove ==>
              && Failures(h.log) == (if rm.err.Some? then [sub.feedUrl] else [])
              && (rm.err.Some? ==> RemoveFailed(sub.feedUrl, rm.err.value) in h.log)
  {
    var probe := [ProbeRequest(sub.feedUrl)];
    if Classify(p) == Remove {
      var rm := RemoveSubscription(cred, sub, d);
      var head := [RemovalNotice(sub.feedUrl, p), RemoveAttempt(sub.id)];
      CollectAppend(head, FailureLog(sub.feedUrl, rm.err), FailedRemoval);
      CollectAppend(probe, rm.calls, DeletedUrl);
      assert head[1..] == [RemoveAttempt(sub.id)];
    }
  }

  // ---------------------------------------------------------------------
  // The whole loop.

  /** Removal is attempted exactly once for every subscription whose probe
      says Remove, for no other, and in list order. */
  lemma {:induction false} RunAttemptsDoomed(cred: Credentials, subs: seq<Subscription>,
                                             probe: nat -> ProbeReply, delete: nat -> DeleteReply)
    ensures Attempts(Run(cred, subs, probe, delete).log) == Doomed(subs, probe)
    decreases |subs|
  {
    if subs != [] {
      var n := |subs| - 1;
      RunAttemptsDoomed(cred, subs[..n], probe, delete);
      var h := Handle(cred, subs[n], probe(n), delete(n));
      CollectAppend(Run(cred, subs[..n], probe, delete).log, h.log, AttemptedId);
      HandleByDisposition(cred, subs[n], probe(n), delete(n));
    }
  }

  /** A warning is logged exactly once for every subscription whose probe
      says Warn, for no other, and in list order. */
  lemma {:induction false} RunWarnsDoubtful(cred: Credentials, subs: seq<Subscription>,
                                            probe: nat -> ProbeReply, delete: nat -> DeleteReply)
    ensures Warnings(Run(cred, subs, probe, delete).log) == Doubtful(subs, probe)
    decreases |subs|
  {
    if subs != [] {
      var n := |subs| - 1;
      RunWarnsDoubtful(cred, subs[..n], probe, delete);
      var h := Handle(cred, subs[n], probe(n), delete(n));
      CollectAppend(Run(cred, subs[..n], probe, delete).log, h.log, WarnedUrl);
      HandleByDisposition(cred, subs[n], probe(n), delete(n));
    }
  }

  /** Every subscription's feed is probed exactly once, in list order, however
      its removal or any earlier one went: per-item failures never cut the
      loop short. */
  lemma {:induction false} RunProbesEveryFeed(cred: Credentials, subs: seq<Subscription>,
                                              probe: nat -> ProbeReply, delete: nat -> DeleteReply)
    ensures Probes(Run(cred, subs, probe, delete).calls) == FeedUrls(subs)
    decreases |subs|
  {
    if subs != [] {
      var n := |subs| - 1;
      RunProbesEveryFeed(cred, subs[..n], probe, delete);
      var h := Handle(cred, subs[n], probe(n), delete(n));
      CollectAppend(Run(cred, subs[..n], probe, delete).calls, h.calls, ProbedUrl);
      HandleByDisposition(cred, subs[n], probe(n), delete(n));
    }
  }

  /** Every DELETE the loop sends names, in its target, the id of a
      subscription whose probe said Remove. */
  lemma {:induction false} RunDeletesOnlyDoomed(cred: Credentials, subs: seq<Subscription>,
                                                probe: nat -> ProbeReply, delete: nat -> DeleteReply)
    ensures forall u :: u in Deletes(Run(cred, subs, probe, delete).calls) ==>
              DeleteUrlId(cred.baseUrl, u).Some? && DeleteUrlId(cred.baseUrl, u).value in Doomed(subs, probe)
    decreases |subs|
  {
    if subs != [] {
      var n := |subs| - 1;
      var before := Run(cred, subs[..n], probe, delete);
      RunDeletesOnlyDoomed(cred, subs[..n], probe, delete);
      var h := Handle(cred, subs[n], probe(n), delete(n));
      CollectAppend(before.calls, h.calls, DeletedUrl);
      HandleDeletes(cred, subs[n], probe(n), delete(n));
      DeleteUrlRoundTrip(cred.baseUrl, subs[n].id);
    }
  }

  /** Outside a dry run the loop sends exactly one DELETE for every
      subscription whose probe says Remove and whose request is not rejected,
      for no other, in list order. */
  lemma {:induction false} RunDeletesDoomed(cred: Credentials, subs: seq<Subscription>,
                                            probe: nat -> ProbeReply, delete: nat -> DeleteReply)
    requires !cred.dryRun
    ensures Deletes(Run(cred, subs, probe, delete).calls) == DoomedTargets(cred, subs, probe, delete)
    decreases |subs|
  {
    if subs != [] {
      var n := |subs| - 1;
      var before := Run(cred, subs[..n], probe, delete);
      RunDeletesDoomed(cred, subs[..n], probe, delete);
      var h := Handle(cred, subs[n], probe(n), delete(n));
      CollectAppend(before.calls, h.calls, DeletedUrl);
      HandleDeletes(cred, subs[n], probe(n), delete(n));
    }
  }

  /** Running the loop over `a + b` is running it over `a`, then over `b`
      with the replies shifted past `a`: no state carries from one
      subscription to the next. */
  lemma {:induction false} RunAppend(cred: Credentials, a: seq<Subscription>, b: seq<Subscription>,
                                     probe: nat -> ProbeReply, delete: nat -> DeleteReply)
    ensures var whole := Run(cred, a + b, probe, delete);
            var first := Run(cred, a, probe, delete);
            var second := Run(cred, b, ShiftProbe(probe, |a|), ShiftDelete(delete, |a|));
            whole == Effects(first.log + second.log, first.calls + second.calls)
    decreases |b|
  {
    if b == [] {
      assert a + b == a;
    } else {
      var n := |b| - 1;
      var sp, sd := ShiftProbe(probe, |a|), ShiftDelete(delete, |a|);
      RunAppend(cred, a, b[..n], probe, delete);
      assert (a + b)[..|a + b| - 1] == a + b[..n];
      assert (a + b)[|a + b| - 1] == b[n];
      assert sp(n) == probe(|a| + n) && sd(n) == delete(|a| + n);
    }
  }

  /** In a dry run the loop sends no DELETE and logs no failed removal. */
  lemma {:induction false} DryRunDeletesNothing(cred: Credentials, subs: seq<Subscription>,
                                                probe: nat -> ProbeReply, delete: nat -> DeleteReply)
    requires cred.dryRun
    ensures Deletes(Run(cred, subs, probe, delete).calls) == []
    ensures Failures(Run(cred, subs, probe, delete).log) == []
    decreases |subs|
  {
    if subs != [] {
      var n := |subs| - 1;
      var before := Run(cred, subs[..n], probe, delete);
      DryRunDeletesNothing(cred, subs[..n], probe, delete);
      var h := Handle(cred, subs[n], probe(n), delete(n));
      CollectAppend(before.calls, h.calls, DeletedUrl);
      CollectAppend(before.log, h.log, FailedRemoval);
      HandleDeletes(cred, subs[n], probe(n), delete(n));
    }
  }

  /** The list call is the only call a fetch makes: when it fails, the run
      has neither probed nor deleted anything. When it succeeds, every feed of
      the fetched list is probed, in order. */
  lemma RunCalls(cred: Credentials, list: ListReply, probe: nat -> ProbeReply, delete: nat -> DeleteReply)
    ensures var fetched := GetSubscriptions(cred, list);
            Probes(fetched.calls) == [] && Deletes(fetched.calls) == []
    ensures var fetched := GetSubscriptions(cred, list);
            var run := Run(cred, fetched.subs, probe, delete);
            fetched.err.None? ==> Probes(fetched.calls + run.calls) == FeedUrls(fetched.subs)
  {
    var fetched := GetSubscriptions(cred, list);
    var run := Run(cred, fetched.subs, probe, delete);
    CollectAppend(fetched.calls, run.calls, ProbedUrl);
    RunProbesEveryFeed(cred, fetched.subs, probe, delete);
  }

  /** A dead feed followed by a live one: the first is removed, the second
      kept silently. */
  lemma ExampleDeadThenLive()
    ensures var cred := Credentials("u", "p", "https://api.example", false);
            var dead := Subscription(1, "", 10, "Dead", "https://dead.example/rss", "");
            var live := Subscription(2, "", 20, "Live", "https://live.example/rss", "");
            var probe := (i: nat) => if i == 0 then ProbeFailed else ProbeStatus(200);
            var delete := (i: nat) => DeleteResponse(204, "");
            var run := Run(cred, [dead, live], probe, delete);
            && run.log == [CouldNotGet(dead.feedUrl), RemoveAttempt(1)]
            && run.calls == [ProbeRequest(dead.feedUrl), DeleteRequest(cred, dead), ProbeRequest(live.feedUrl)]
  {
    var cred := Credentials("u", "p", "https://api.example", false);
    var dead := Subscription(1, "", 10, "Dead", "https://dead.example/rss", "");
    var live := Subscription(2, "", 20, "Live", "https://live.example/rss", "");
    var probe := (i: nat) => if i == 0 then ProbeFailed else ProbeStatus(200);
    var delete := (i: nat) => DeleteResponse(204, "");
    var subs := [dead, live];
    RunStep(cred, subs, 0, probe, delete);
    RunStep(cred, subs, 1, probe, delete);
    assert subs[..0] == [] && subs[..2] == subs;
  }
}
