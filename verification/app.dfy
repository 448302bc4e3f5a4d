/** The command-line program (app.js): the usage check, the start banner,
    the name-based allow-list, the per-platform patch and update, and the
    run that authenticates, lists, filters and updates. Parsed options and
    the service's replies are inputs. */
module App {
  import opened Wrappers
  import opened Cedexis
  import Arrays

  const NO_UPDATE: string := "No update specified"
  const ENABLING: string := "Enabling platforms: "
  const DISABLING: string := "Disabling platforms: "
  const NO_ACTION: string := "No action specified on platforms: "

  /** The parsed command line: the two flags, the positional platform names,
      and what the client is built from. */
  datatype Options = Options(
    enable: bool,
    disable: bool,
    platforms: seq<string>,
    host: string,
    id: string,
    secret: string,
    verbose: bool)

  /** How a run ends: refused by the usage check, stopped by a failed token or
      listing request, or with one result per selected platform, in list order. */
  datatype RunOutcome =
    | Rejected
    | StageFailed(error: Error)
    | Updated(results: seq<Result<Body, Error>>)

  /** The run exits with an error: every refused or stopped run does, and a
      run that updated platforms does when one of the updates failed. */
  predicate ReportsFailure(outcome: RunOutcome)
    ensures outcome.Rejected? || outcome.StageFailed? ==> ReportsFailure(outcome)
    ensures outcome.Updated? && (forall k :: 0 <= k < |outcome.results| ==> outcome.results[k].Success?) ==>
              !ReportsFailure(outcome)
    ensures outcome.Updated? ==>
              forall k :: 0 <= k < |outcome.results| && outcome.results[k].Failure? ==> ReportsFailure(outcome)
  {
    match outcome
    case Rejected => true
    case StageFailed(_) => true
    case Updated(results) => exists k :: 0 <= k < |results| && results[k].Failure?
  }

  /** The usage check of `main`: both flags, or no platform at all. */
  predicate UsageRejected(o: Options)
    ensures o.enable && o.disable ==> UsageRejected(o)
    ensures |o.platforms| == 0 ==> UsageRejected(o)
    ensures !(o.enable && o.disable) ==> (UsageRejected(o) <==> |o.platforms| == 0)
  {
    (o.enable && o.disable) || |o.platforms| == 0
  }

  /** Neither flag set is not a usage error. */
  lemma NeitherFlagPasses(o: Options)
    requires !o.enable && !o.disable && |o.platforms| > 0
    ensures !UsageRejected(o)
  {
  }

  /** The banner printed before the first request: the action, then the names. */
  function StartMessage(o: Options): (banner: string)
    ensures o.enable ==> |ENABLING| <= |banner| && banner[..|ENABLING|] == ENABLING
    ensures !o.enable && o.disable ==> |DISABLING| <= |banner| && banner[..|DISABLING|] == DISABLING
    ensures !o.enable && !o.disable ==> |NO_ACTION| <= |banner| && banner[..|NO_ACTION|] == NO_ACTION
  {
    var action :=
      if o.enable || o.disable then (if o.enable then ENABLING else DISABLING)
      else NO_ACTION;
    action + Arrays.Join(o.platforms, ',')
  }

  /** After the action's prefix, the banner holds the names, which can be
      read back by cutting at the commas when no name holds one. */
  lemma StartMessageParts(o: Options, prefix: string)
    requires prefix == if o.enable then ENABLING else if o.disable then DISABLING else NO_ACTION
    requires |o.platforms| >= 1
    requires forall i :: 0 <= i < |o.platforms| ==> ',' !in o.platforms[i]
    ensures |prefix| <= |StartMessage(o)|
    ensures Arrays.Split(StartMessage(o)[|prefix|..], ',') == o.platforms
  {
    var m := StartMessage(o);
    assert m == prefix + Arrays.Join(o.platforms, ',');
    assert m[|prefix|..] == Arrays.Join(o.platforms, ',');
    Arrays.SplitJoin(o.platforms, ',');
  }

  /** `filterPlatforms`: a listed platform is selected when its name is one of
      the names on the command line. */
  function FilterPlatforms(names: seq<string>, p: Platform): (keep: bool)
    ensures keep <==> p.name in names
  {
    Arrays.IndexOf(names, p.name) >= 0
  }

  /** The selection filter handed to the listing request. */
  function Keep(o: Options): Platform -> bool
  {
    p => FilterPlatforms(o.platforms, p)
  }

  /** The in-place patch of `updatePlatform`: a platform with a `sonarConfig`
      gets `maintenanceMode` set to the state; one without is left as it is. */
  function Patch(p: Platform, state: bool): (q: Platform)
    ensures q.id == p.id && q.name == p.name && q.displayName == p.displayName && q.rest == p.rest
    ensures q.sonarConfig.Some? <==> p.sonarConfig.Some?
    ensures p.sonarConfig.Some? ==>
              q.sonarConfig.value.maintenanceMode == Some(state) &&
              q.sonarConfig.value.rest == p.sonarConfig.value.rest
    ensures p.sonarConfig.None? ==> q == p
  {
    match p.sonarConfig
    case None => p
    case Some(config) => p.(sonarConfig := Some(config.(maintenanceMode := Some(state))))
  }

  /** Patching twice with one state is patching once; with two states, the
      second wins. */
  lemma PatchIdempotent(p: Platform, first: bool, second: bool)
    ensures Patch(Patch(p, first), first) == Patch(p, first)
    ensures Patch(Patch(p, first), second) == Patch(p, second)
  {
  }

  /** `updatePlatform` of app.js: with no state it fails at once and sends
      nothing; otherwise it patches the platform and puts it. */
  method UpdatePlatform(o: Options, client: Client, platform: Platform, reply: Reply)
    returns (request: Option<Request>, r: Result<Body, Error>)
    ensures !(o.enable || o.disable) ==> request == None && r == Failure(Exception(NO_UPDATE))
    ensures o.enable || o.disable ==>
              request == Some(Put(UpdateUrl(client.host, platform.id), Bearer(client.token),
                                  JSON_CONTENT_TYPE, Patch(platform, o.enable))) &&
              r == UpdateOutcome(reply)
  {
    if !(o.enable || o.disable) {
      return None, Failure(Exception(NO_UPDATE));
    }
    var status := o.enable;
    var patched := Patch(platform, status);
    var put;
    put, r := client.UpdatePlatform(patched, reply);
    request := Some(put);
  }

  /** What the client is built from. */
  function HostOf(o: Options): string
  {
    ClientHost(Some(ClientOptions(Some(o.host), Some(o.verbose))))
  }

  function TokenRequest(o: Options): Request
  {
    Post(TokenUrl(HostOf(o)), FORM_CONTENT_TYPE, TokenRequestBody(o.id, o.secret))
  }

  function ListRequest(o: Options, token: string): Request
  {
    Get(PlatformsUrl(HostOf(o)), Bearer(Some(token)))
  }

  /** The update requests sent for `items`, in order. */
  function Puts(o: Options, token: string, items: seq<Platform>): seq<Request>
  {
    if items == [] || !(o.enable || o.disable) then []
    else
      var last := items[|items| - 1];
      Puts(o, token, items[..|items| - 1]) +
      [Put(UpdateUrl(HostOf(o), last.id), Bearer(Some(token)), JSON_CONTENT_TYPE, Patch(last, o.enable))]
  }

  /** With a state, one update per selected platform, in list order, each
      carrying the patched record to the endpoint of its id with the token;
      without a state, none. */
  lemma {:induction false} PutsShape(o: Options, token: string, items: seq<Platform>)
    ensures !(o.enable || o.disable) ==> Puts(o, token, items) == []
    ensures o.enable || o.disable ==>
              |Puts(o, token, items)| == |items| &&
              forall k :: 0 <= k < |items| ==>
                Puts(o, token, items)[k] ==
                  Put(UpdateUrl(HostOf(o), items[k].id), Bearer(Some(token)), JSON_CONTENT_TYPE,
                      Patch(items[k], o.enable))
    decreases |items|
  {
    if items != [] && (o.enable || o.disable) {
      PutsShape(o, token, items[..|items| - 1]);
    }
  }

  /** The result of updating one selected platform. */
  function UpdateResult(o: Options, reply: Reply): Result<Body, Error>
  {
    if o.enable || o.disable then UpdateOutcome(reply) else Failure(Exception(NO_UPDATE))
  }

  /** One run of the program. `updateReply(k)` is the service's answer to the
      update of the k-th selected platform. The requests are returned in the
      order they are issued. */
  method Run(o: Options, tokenReply: Reply, listReply: Reply, updateReply: nat -> Reply)
    returns (trace: seq<Request>, outcome: RunOutcome)
    ensures UsageRejected(o) ==> trace == [] && outcome == Rejected
    ensures !UsageRejected(o) && TokenOutcome(tokenReply).Failure? ==>
              trace == [TokenRequest(o)] && outcome == StageFailed(TokenOutcome(tokenReply).error)
    ensures !UsageRejected(o) && TokenOutcome(tokenReply).Success? &&
            ListOutcome(Some(Keep(o)), listReply).Failure? ==>
              trace == [TokenRequest(o), ListRequest(o, TokenOutcome(tokenReply).value)] &&
              outcome == StageFailed(ListOutcome(Some(Keep(o)), listReply).error)
    ensures !UsageRejected(o) && TokenOutcome(tokenReply).Success? &&
            ListOutcome(Some(Keep(o)), listReply).Success? ==>
              var token := TokenOutcome(tokenReply).value;
              var selected := ListOutcome(Some(Keep(o)), listReply).value;
              selected.Array? &&
              trace == [TokenRequest(o), ListRequest(o, token)] + Puts(o, token, selected.items) &&
              outcome.Updated? && |outcome.results| == |selected.items| &&
              (forall k :: 0 <= k < |selected.items| ==> outcome.results[k] == UpdateResult(o, updateReply(k))) &&
              (ReportsFailure(outcome) <==>
                 exists k :: 0 <= k < |selected.items| && UpdateResult(o, updateReply(k)).Failure?)
    ensures !UsageRejected(o) ==> outcome == FinalCallback(o, Waterfall(o, tokenReply, listReply), updateReply)
  {
    var client := new Client(o.id, o.secret, Some(ClientOptions(Some(o.host), Some(o.verbose))));
    assert client.host == HostOf(o);
    if UsageRejected(o) {
      return [], Rejected;
    }
    var post, token := client.GenerateAccessToken(tokenReply);
    assert post == TokenRequest(o);
    if token.Failure? {
      return [post], StageFailed(token.error);
    }
    var get, listed := client.GetPlatforms(Some(Keep(o)), listReply);
    assert get == ListRequest(o, token.value);
    if listed.Failure? {
      return [post, get], StageFailed(listed.error);
    }
    assert listed.value.Array?;
    var puts, results := FanOut(o, client, listed.value.items, updateReply);
    trace := [post, get] + puts;
    outcome := Updated(results);
    assert results == seq(|listed.value.items|, k requires 0 <= k < |listed.value.items| => UpdateResult(o, updateReply(k)));
  }

  /** The fan-out of `async.each` over the selected platforms, one update
      after the other in list order, collecting one result per platform. */
  method FanOut(o: Options, client: Client, selected: seq<Platform>, updateReply: nat -> Reply)
    returns (puts: seq<Request>, results: seq<Result<Body, Error>>)
    requires client.token.Some? && client.host == HostOf(o)
    ensures puts == Puts(o, client.token.value, selected)
    ensures |results| == |selected|
    ensures forall k :: 0 <= k < |selected| ==> results[k] == UpdateResult(o, updateReply(k))
  {
    puts, results := [], [];
    var i := 0;
    while i < |selected|
      invariant 0 <= i <= |selected|
      invariant |results| == i
      invariant forall k :: 0 <= k < i ==> results[k] == UpdateResult(o, updateReply(k))
      invariant puts == Puts(o, client.token.value, selected[..i])
    {
      var request, r := UpdatePlatform(o, client, selected[i], updateReply(i));
      assert selected[..i + 1][..i] == selected[..i];
      if request.Some? {
        puts := puts + [request.value];
      }
      results := results + [r];
      i := i + 1;
    }
    assert selected[..i] == selected;
  }

  /** What the waterfall of token and listing requests hands to its final
      callback: the first stage's error, or the selected platforms. */
  function Waterfall(o: Options, tokenReply: Reply, listReply: Reply): (stage: Result<seq<Platform>, Error>)
    ensures stage.Success? ==>
              TokenOutcome(tokenReply).Success? && listReply.data.Some? && listReply.data.value.Array? &&
              Arrays.IsSubsequence(stage.value, listReply.data.value.items) &&
              forall k :: 0 <= k < |stage.value| ==> stage.value[k].name in o.platforms
  {
    match TokenOutcome(tokenReply)
    case Failure(e) => Failure(e)
    case Success(_) =>
      match ListOutcome(Some(Keep(o)), listReply)
      case Failure(e) => Failure(e)
      case Success(body) =>
        Arrays.FilterIsSubsequence(listReply.data.value.items, Keep(o));
        assert forall k :: 0 <= k < |body.items| ==> Keep(o)(body.items[k]);
        Success(body.items)
  }

  /** With both stages through, the run exits with an error exactly when one
      of the updates fails. With `-e` or `-d` that is a rejected update reply;
      with neither flag it is every run that selected a platform. */
  lemma {:induction false} UpdateFailuresReported(o: Options, selected: seq<Platform>, updateReply: nat -> Reply)
    ensures var outcome := FinalCallback(o, Success(selected), updateReply);
            ReportsFailure(outcome) <==> exists k :: 0 <= k < |selected| && UpdateResult(o, updateReply(k)).Failure?
    ensures o.enable || o.disable ==>
              (ReportsFailure(FinalCallback(o, Success(selected), updateReply)) <==>
                 exists k :: 0 <= k < |selected| && UpdateOutcome(updateReply(k)).Failure?)
    ensures !o.enable && !o.disable && |selected| >= 1 ==>
              ReportsFailure(FinalCallback(o, Success(selected), updateReply))
  {
    var outcome := FinalCallback(o, Success(selected), updateReply);
    assert forall k :: 0 <= k < |selected| ==> outcome.results[k] == UpdateResult(o, updateReply(k));
    if !o.enable && !o.disable && |selected| >= 1 {
      assert outcome.results[0].Failure?;
    }
  }

  /** The results of updating `selected`, one per platform, in order. */
  function UpdateResults(o: Options, selected: seq<Platform>, updateReply: nat -> Reply): seq<Result<Body, Error>>
  {
    seq(|selected|, k requires 0 <= k < |selected| => UpdateResult(o, updateReply(k)))
  }

  /** The final waterfall callback as intended: a failed stage stops the run
      with its error; otherwise every selected platform is updated. */
  function FinalCallback(o: Options, stage: Result<seq<Platform>, Error>, updateReply: nat -> Reply): (outcome: RunOutcome)
    ensures stage.Failure? ==> outcome == StageFailed(stage.error) && ReportsFailure(outcome)
    ensures stage.Success? ==> outcome.Updated? && |outcome.results| == |stage.value|
  {
    match stage
    case Failure(e) => StageFailed(e)
    case Success(selected) => Updated(UpdateResults(o, selected, updateReply))
  }

  /** The final waterfall callback as written: `err` is never read, and after
      a failed stage `result` is undefined, over which the fan-out runs no
      update and completes without error. A failed stage handed to it is not
      reported. In the code as written no stage error reaches it: the
      unqualified `setErrorMessage` call throws first (see
      `Cedexis.TokenOutcomeAsWritten`); the stage errors it would see are
      the RadarExceptions of the corrected client. */
  function FinalCallbackAsWritten(o: Options, stage: Result<seq<Platform>, Error>, updateReply: nat -> Reply): (outcome: RunOutcome)
    ensures outcome.Updated?
    ensures stage.Failure? ==> !ReportsFailure(outcome)
  {
    var collection := if stage.Success? then stage.value else [];
    Updated(UpdateResults(o, collection, updateReply))
  }

  /** For every run that passes the usage check, with the client's
      `setErrorMessage` call corrected: when the token or the listing request
      is rejected, the final callback as written updates nothing and exits as
      if it had succeeded, while `Run` stops with the stage's error and
      reports it. The only other stage failure is the `TypeError` of a
      listing that is an object; it is thrown before any callback runs, so no
      callback sees it. When both stages succeed, the two callbacks agree. */
  lemma StageErrorIgnored(o: Options, tokenReply: Reply, listReply: Reply, updateReply: nat -> Reply)
    requires !UsageRejected(o)
    ensures var stage := Waterfall(o, tokenReply, listReply);
            stage.Failure? && !stage.error.RadarException? ==>
              stage.error == TypeError("data.filter is not a function") &&
              TokenOutcome(tokenReply).Success? && listReply.status == 200 &&
              listReply.data.Some? && listReply.data.value.Object?
    ensures var stage := Waterfall(o, tokenReply, listReply);
            stage.Failure? && stage.error.RadarException? ==>
              FinalCallbackAsWritten(o, stage, updateReply) == Updated([]) &&
              !ReportsFailure(FinalCallbackAsWritten(o, stage, updateReply)) &&
              FinalCallback(o, stage, updateReply) == StageFailed(stage.error) &&
              ReportsFailure(FinalCallback(o, stage, updateReply))
    ensures var stage := Waterfall(o, tokenReply, listReply);
            stage.Success? ==> FinalCallbackAsWritten(o, stage, updateReply) == FinalCallback(o, stage, updateReply)
  {
  }

  /** A client of `Run`: one listed platform "east" with maintenance mode off,
      the flag `-e`, and a service that accepts every request. Exactly one update
      goes to the platform's endpoint, carrying maintenance mode on. */
  method EnableOnePlatform()
  {
    var o := Options(true, false, ["east"], "https://x/", "a", "b", false);
    var east := Platform("1", "east", "East Coast", Some(SonarConfig(Some(false), [])), []);
    var tokenReply := Reply(200, Some(Object(Some("t"), None, [])));
    var listReply := Reply(200, Some(Array([east])));
    var echo := Object(None, None, []);
    assert HostOf(o) == "https://x/";
    assert TokenOutcome(tokenReply) == Success("t");
    assert [east][1..] == [];
    assert Arrays.Filter([east], Keep(o)) == [east];
    assert ListOutcome(Some(Keep(o)), listReply) == Success(Array([east]));
    var patched := Platform("1", "east", "East Coast", Some(SonarConfig(Some(true), [])), []);
    assert Patch(east, true) == patched;
    PutsShape(o, "t", [east]);
    var trace, outcome := Run(o, tokenReply, listReply, k => Reply(200, Some(echo)));
    assert trace == [TokenRequest(o), ListRequest(o, "t"),
                     Put(UpdateUrl(HostOf(o), "1"), Bearer(Some("t")), JSON_CONTENT_TYPE, patched)];
    assert outcome == Updated([Success(echo)]);
  }
}
