/**
 * The decision logic of the workload manager: the two configuration loops
 * of Init, the dispatch of StartWorkload, and the checks and image cache of
 * StartDockerWorkload. The Docker daemon is a client object whose pulls
 * succeed or fail at its own discretion.
 */
module Workload {
  import opened Wrappers
  import opened Strings
  import Resources

  const DevWorkload: string := "dev"
  const DockerWorkload: string := "docker"
  const FirecrackerWorkload: string := "firecracker"

  /** The workload types Init accepts in its configuration. */
  const KnownTypes: set<string> := {DevWorkload, DockerWorkload, FirecrackerWorkload}

  /** The configuration used when the supported-workloads string is empty. */
  const DefaultTypes: set<string> := {DevWorkload, DockerWorkload}

  /** GenRandomID("wrkl_") is this prefix followed by a caller-supplied suffix. */
  const WorkloadIDPrefix: string := "wrkl_"

  /** The payload of a workload: either a DockerPayload or some other value,
      which the type assertion of StartDockerWorkload rejects. */
  datatype Payload = DockerPayload(image: string) | OtherPayload

  datatype Workload = Workload(resources: Resources.Resources, workloadType: string,
                               timeout: Option<nat>, payload: Payload)

  datatype Error =
    | UnknownWorkloadType
    | UnknownPayload
    | UnsupportedWorkloadType
    | DockerClientInitFailed
    | ImagePullFailed(image: string)
    | StartDockerWorkloadFailed(cause: Error)

  // ---------------------------------------------------------------------
  // The supported-workloads configuration

  /** A token Init lets through: blank tokens are skipped, known types kept. */
  predicate Acceptable(token: string)
  {
    token == "" || token in KnownTypes
  }

  /** The index of the first token Init rejects, or |tokens| if there is none. */
  function FirstRejected(tokens: seq<string>): (n: nat)
    ensures n <= |tokens|
    ensures forall k :: 0 <= k < n ==> Acceptable(tokens[k])
    ensures n < |tokens| ==> !Acceptable(tokens[n])
  {
    if tokens == [] || !Acceptable(tokens[0]) then 0 else 1 + FirstRejected(tokens[1..])
  }

  /** The non-blank tokens among the first n. */
  function AcceptedTypes(tokens: seq<string>, n: nat): set<string>
    requires n <= |tokens|
  {
    set k | 0 <= k < n && tokens[k] != "" :: tokens[k]
  }

  /** Taking one more token adds it to the accepted types unless it is blank. */
  lemma AcceptedTypesStep(tokens: seq<string>, i: nat)
    requires i < |tokens|
    ensures AcceptedTypes(tokens, i + 1) ==
              AcceptedTypes(tokens, i) + (if tokens[i] == "" then {} else {tokens[i]})
  {
  }

  /** What Init leaves in SupportedWorkloads and whether it reports an error. */
  datatype ParseOutcome = ParseOutcome(supported: set<string>, err: Option<Error>)

  /** The supported-workloads configuration read as intended: an empty string
      means the default; otherwise the non-blank tokens are the supported
      types, and an unknown token is an error that leaves nothing supported. */
  function ParseSupported(config: string): (o: ParseOutcome)
    ensures o.supported <= KnownTypes
    ensures o.err == None || o.err == Some(UnknownWorkloadType)
    ensures o.err.Some? ==> o.supported == {}
    ensures config == "" ==> o == ParseOutcome(DefaultTypes, None)
  {
    if config == "" then ParseOutcome(DefaultTypes, None)
    else
      var tokens := Split(config, ',');
      if FirstRejected(tokens) < |tokens| then ParseOutcome({}, Some(UnknownWorkloadType))
      else ParseOutcome(AcceptedTypes(tokens, |tokens|), None)
  }

  /** A non-empty configuration is accepted exactly when each of its tokens,
      untrimmed, is blank or a known type. */
  lemma ParseAcceptsIff(config: string)
    requires config != ""
    ensures ParseSupported(config).err == None <==>
              forall t | t in Split(config, ',') :: Acceptable(t)
  {
    var tokens := Split(config, ',');
    var n := FirstRejected(tokens);
    if n < |tokens| {
      assert tokens[n] in tokens;
    } else {
      forall t | t in tokens ensures Acceptable(t) {
        var k :| 0 <= k < |tokens| && tokens[k] == t;
      }
    }
  }

  /** An accepted non-empty configuration supports exactly its non-blank tokens. */
  lemma ParseCollectsEveryToken(config: string)
    requires config != "" && ParseSupported(config).err == None
    ensures ParseSupported(config).supported == set t | t in Split(config, ',') && t != ""
  {
    var tokens := Split(config, ',');
    assert FirstRejected(tokens) == |tokens|;
    forall t | t in tokens && t != "" ensures t in AcceptedTypes(tokens, |tokens|) {
      var k :| 0 <= k < |tokens| && tokens[k] == t;
    }
  }

  /** The known type names are non-empty and hold no comma. */
  lemma KnownTypesAreSimple(types: seq<string>)
    requires forall k :: 0 <= k < |types| ==> types[k] in KnownTypes
    ensures forall k :: 0 <= k < |types| ==> ',' !in types[k] && types[k] != ""
  {
    forall k | 0 <= k < |types| ensures ',' !in types[k] && types[k] != "" {
      assert types[k] == DevWorkload || types[k] == DockerWorkload || types[k] == FirecrackerWorkload;
    }
  }

  /** Writing a list of known types with commas between them configures
      exactly those types. */
  lemma ConfigRoundTrip(types: seq<string>)
    requires |types| >= 1
    requires forall k :: 0 <= k < |types| ==> types[k] in KnownTypes
    ensures ParseSupported(Join(types, ',')) == ParseOutcome((set t | t in types), None)
  {
    var config := Join(types, ',');
    assert Split(config, ',') == types && config != "" by {
      KnownTypesAreSimple(types);
      SplitJoin(types, ',');
      assert Split("", ',') == [[]];
    }
    assert ParseSupported(config).err == None by {
      forall t | t in Split(config, ',') ensures Acceptable(t) {
        var k :| 0 <= k < |types| && types[k] == t;
      }
      ParseAcceptsIff(config);
    }
    ParseCollectsEveryToken(config);
    assert (set t | t in types && t != "") == (set t | t in types) by {
      KnownTypesAreSimple(types);
    }
  }

  /** Init's loop over the supported-workloads configuration, with
      SupportedWorkloads created before it is written (see ParseSupportedWorkloadsAsWritten). */
  method ParseSupportedWorkloads(config: string) returns (supported: set<string>, err: Option<Error>)
    ensures ParseOutcome(supported, err) == ParseSupported(config)
  {
    if config == "" {
      return DefaultTypes, None;
    }
    var tokens := Split(config, ',');
    supported := {};
    var i := 0;
    while i < |tokens|
      invariant i <= FirstRejected(tokens)
      invariant supported == AcceptedTypes(tokens, i)
    {
      var token := tokens[i];
      if token == "" {
        assert AcceptedTypes(tokens, i + 1) == supported by {
          AcceptedTypesStep(tokens, i);
        }
        i := i + 1;
        continue;
      }
      if token !in KnownTypes {
        return {}, Some(UnknownWorkloadType);
      }
      supported := supported + {token};
      assert AcceptedTypes(tokens, i + 1) == supported by {
        AcceptedTypesStep(tokens, i);
      }
      i := i + 1;
    }
    return supported, None;
  }

  /** How Init as written ends: with a supported set, an error, or a panic. */
  datatype InitStep = Parsed(supported: set<string>) | Failed(error: Error) | Panicked

  /** Init's loop as written: SupportedWorkloads is left nil when the
      configuration is non-empty, so the first known token is written into a
      nil map and the program panics: exactly when a known token comes before
      the first unknown one. Where it does not panic it agrees with ParseSupported. */
  method ParseSupportedWorkloadsAsWritten(config: string) returns (step: InitStep)
    ensures step == Panicked <==>
              config != "" && AcceptedTypes(Split(config, ','), FirstRejected(Split(config, ','))) != {}
    ensures step.Parsed? <==> ParseSupported(config).err == None && step != Panicked
    ensures step.Parsed? ==> step.supported == ParseSupported(config).supported
    ensures step.Failed? ==> Some(step.error) == ParseSupported(config).err
  {
    if config == "" {
      return Parsed(DefaultTypes);
    }
    var tokens := Split(config, ',');
    var i := 0;
    while i < |tokens|
      invariant i <= FirstRejected(tokens)
      invariant AcceptedTypes(tokens, i) == {}
    {
      var token := tokens[i];
      if token == "" {
        assert AcceptedTypes(tokens, i + 1) == {} by {
          AcceptedTypesStep(tokens, i);
        }
        i := i + 1;
        continue;
      }
      if token !in KnownTypes {
        return Failed(UnknownWorkloadType);
      }
      assert token in AcceptedTypes(tokens, FirstRejected(tokens));
      return Panicked;
    }
    return Parsed({});
  }

  /** The configuration "dev,docker" makes Init as written panic, where the
      intended reading supports dev and docker. */
  method NilMapCounterexample() returns (asWritten: InitStep, supported: set<string>, err: Option<Error>)
    ensures asWritten == Panicked
    ensures supported == {DevWorkload, DockerWorkload} && err == None
  {
    ConfigRoundTrip([DevWorkload, DockerWorkload]);
    assert Join([DevWorkload, DockerWorkload], ',') == "dev,docker";
    assert (set t | t in [DevWorkload, DockerWorkload]) == {DevWorkload, DockerWorkload};
    asWritten := ParseSupportedWorkloadsAsWritten("dev,docker");
    supported, err := ParseSupportedWorkloads("dev,docker");
  }

  // ---------------------------------------------------------------------
  // The preinstalled-images configuration

  /** The trimmed non-blank tokens among the first n (blankness is checked
      before trimming, so a token of spaces contributes the empty name). */
  function ImagesOf(tokens: seq<string>, n: nat): set<string>
    requires n <= |tokens|
  {
    set k | 0 <= k < n && tokens[k] != "" :: TrimSpace(tokens[k])
  }

  /** Taking one more token adds its trimmed form unless it is blank. */
  lemma ImagesOfStep(tokens: seq<string>, i: nat)
    requires i < |tokens|
    ensures ImagesOf(tokens, i + 1) ==
              ImagesOf(tokens, i) + (if tokens[i] == "" then {} else {TrimSpace(tokens[i])})
  {
  }

  /** The images the preinstalled-images configuration names. */
  function PreinstalledImages(config: string): set<string>
  {
    var tokens := Split(config, ',');
    ImagesOf(tokens, |tokens|)
  }

  /** Every name seeded is trimmed. */
  lemma PreinstalledImagesAreTrimmed(config: string)
    ensures forall img | img in PreinstalledImages(config) ::
              img == [] || (!IsSpace(img[0]) && !IsSpace(img[|img| - 1]))
  {
    var tokens := Split(config, ',');
    forall img | img in PreinstalledImages(config)
      ensures img == [] || (!IsSpace(img[0]) && !IsSpace(img[|img| - 1]))
    {
      var k :| 0 <= k < |tokens| && tokens[k] != "" && img == TrimSpace(tokens[k]);
    }
  }

  /** No name seeded holds a comma. */
  lemma PreinstalledImagesHaveNoComma(config: string)
    ensures forall img | img in PreinstalledImages(config) :: ',' !in img
  {
    var tokens := Split(config, ',');
    forall img | img in PreinstalledImages(config) ensures ',' !in img {
      var k :| 0 <= k < |tokens| && tokens[k] != "" && img == TrimSpace(tokens[k]);
      TrimSpaceIsInfix(tokens[k]);
      var i, j :| 0 <= i <= j <= |tokens[k]| && img == tokens[k][i..j];
      assert forall c | c in img :: c in tokens[k];
    }
  }

  /** Names without commas or surrounding white space, written with commas
      between them, are exactly the images the configuration names. */
  lemma PreinstalledRoundTrip(names: seq<string>)
    requires |names| >= 1
    requires forall k :: 0 <= k < |names| ==> names[k] != "" && ',' !in names[k]
    requires forall k :: 0 <= k < |names| ==> !IsSpace(names[k][0]) && !IsSpace(names[k][|names[k]| - 1])
    ensures PreinstalledImages(Join(names, ',')) == set n | n in names
  {
    SplitJoin(names, ',');
    forall k | 0 <= k < |names| ensures TrimSpace(names[k]) == names[k] {
      TrimSpaceKeepsTrimmed(names[k]);
    }
    forall n | n in names ensures n in PreinstalledImages(Join(names, ',')) {
      var k :| 0 <= k < |names| && names[k] == n;
    }
  }

  /** A token made only of white space passes the blank test and seeds the empty name. */
  lemma BlankTokenSeedsEmptyName(config: string)
    requires config != ""
    requires forall k :: 0 <= k < |config| ==> IsSpace(config[k])
    ensures PreinstalledImages(config) == {""}
  {
    var tokens := Split(config, ',');
    assert !IsSpace(',');
    assert ',' !in config;
    SplitJoin([config], ',');
    assert tokens == [config];
    BlankTrimsToEmpty(config);
    assert ImagesOf(tokens, 1) == {TrimSpace(tokens[0])};
  }

  /** Init's loop over the preinstalled images, storing each name in the cache. */
  method SeedPreinstalledImages(cache: set<string>, config: string) returns (seeded: set<string>)
    ensures seeded == cache + PreinstalledImages(config)
  {
    var tokens := Split(config, ',');
    seeded := cache;
    var i := 0;
    while i < |tokens|
      invariant i <= |tokens|
      invariant seeded == cache + ImagesOf(tokens, i)
    {
      if tokens[i] != "" {
        var image := TrimSpace(tokens[i]);
        seeded := seeded + {image};
      }
      assert seeded == cache + ImagesOf(tokens, i + 1) by {
        ImagesOfStep(tokens, i);
      }
      i := i + 1;
    }
  }

  /** Init's loop as written: each name is only looked up in the cache, so
      the cache is left as it was whatever the configuration. */
  method SeedPreinstalledImagesAsWritten(cache: set<string>, config: string) returns (seeded: set<string>)
    ensures seeded == cache
  {
    var tokens := Split(config, ',');
    seeded := cache;
    var i := 0;
    while i < |tokens|
      invariant i <= |tokens|
      invariant seeded == cache
    {
      if tokens[i] != "" {
        var image := TrimSpace(tokens[i]);
        var cached := image in seeded;
      }
      i := i + 1;
    }
  }

  /** Preinstalling "nginx": the loop as written leaves it out of the cache,
      the intended loop puts it in. */
  method PreinstalledCounterexample() returns (asWritten: set<string>, seeded: set<string>)
    ensures "nginx" !in asWritten
    ensures "nginx" in seeded
  {
    PreinstalledRoundTrip(["nginx"]);
    asWritten := SeedPreinstalledImagesAsWritten({}, "nginx");
    seeded := SeedPreinstalledImages({}, "nginx");
  }

  // ---------------------------------------------------------------------
  // Starting a Docker workload

  /** The effect of one StartDockerWorkload: its error, the image cache
      afterwards, and the images pulled from the daemon on the way. */
  datatype StartOutcome = StartOutcome(err: Option<Error>, cache: set<string>, pulls: seq<string>)

  /** StartDockerWorkload on a supported set and cache, where pullSucceeds is
      the daemon's answer should the image be pulled. */
  function DockerStart(supported: set<string>, cache: set<string>, payload: Payload,
                       pullSucceeds: bool): (o: StartOutcome)
    ensures DockerWorkload !in supported ==> o == StartOutcome(Some(UnsupportedWorkloadType), cache, [])
    ensures DockerWorkload in supported && !payload.DockerPayload? ==>
              o == StartOutcome(Some(UnknownPayload), cache, [])
    ensures o.err == None <==>
              && DockerWorkload in supported && payload.DockerPayload?
              && (payload.image in cache || pullSucceeds)
    ensures o.err == None ==> payload.image in o.cache
    ensures cache <= o.cache && o.cache - cache <= (if payload.DockerPayload? then {payload.image} else {})
    ensures o.pulls == [] || (o.pulls == [payload.image] && payload.image !in cache)
    ensures DockerWorkload in supported && payload.DockerPayload? && payload.image !in cache ==>
              o.pulls == [payload.image]
    ensures o.err.Some? ==> o.cache == cache
  {
    if DockerWorkload !in supported then StartOutcome(Some(UnsupportedWorkloadType), cache, [])
    else if !payload.DockerPayload? then StartOutcome(Some(UnknownPayload), cache, [])
    else if payload.image in cache then StartOutcome(None, cache, [])
    else if !pullSucceeds then StartOutcome(Some(ImagePullFailed(payload.image)), cache, [payload.image])
    else StartOutcome(None, cache + {payload.image}, [payload.image])
  }

  /** Once a start has succeeded, starting the same payload again is a cache
      hit: no pull, no change, whatever the daemon would answer. */
  lemma SecondStartHits(supported: set<string>, cache: set<string>, payload: Payload,
                        first: bool, second: bool)
    requires DockerStart(supported, cache, payload, first).err == None
    ensures var after := DockerStart(supported, cache, payload, first).cache;
            DockerStart(supported, after, payload, second) == StartOutcome(None, after, [])
  {
  }

  /** A sequence of starts, each with the daemon's answer should it pull:
      the final cache and every image pulled, in order. */
  function RunStarts(supported: set<string>, cache: set<string>, payloads: seq<Payload>,
                     answers: seq<bool>): (r: (set<string>, seq<string>))
    requires |answers| == |payloads|
    decreases |payloads|
  {
    if payloads == [] then (cache, [])
    else
      var o := DockerStart(supported, cache, payloads[0], answers[0]);
      var rest := RunStarts(supported, o.cache, payloads[1..], answers[1..]);
      (rest.0, o.pulls + rest.1)
  }

  /** Over any run the cache only grows, and while the daemon answers every
      pull with success no image is pulled twice, nor one already cached. */
  lemma {:induction false} RunPullsEachImageOnce(supported: set<string>, cache: set<string>,
                                                 payloads: seq<Payload>, answers: seq<bool>)
    requires |answers| == |payloads|
    decreases |payloads|
    ensures cache <= RunStarts(supported, cache, payloads, answers).0
    ensures (forall k :: 0 <= k < |answers| ==> answers[k]) ==>
              var r := RunStarts(supported, cache, payloads, answers);
              forall image :: multiset(r.1)[image] <= (if image in cache then 0 else 1)
  {
    if payloads != [] {
      var o := DockerStart(supported, cache, payloads[0], answers[0]);
      RunPullsEachImageOnce(supported, o.cache, payloads[1..], answers[1..]);
      if forall k :: 0 <= k < |answers| ==> answers[k] {
        assert forall k :: 0 <= k < |answers[1..]| ==> answers[1..][k] by {
          forall k | 0 <= k < |answers[1..]| ensures answers[1..][k] {
            assert answers[1..][k] == answers[k + 1];
          }
        }
        var rest := RunStarts(supported, o.cache, payloads[1..], answers[1..]);
        forall image ensures multiset(o.pulls + rest.1)[image] <= (if image in cache then 0 else 1) {
          assert multiset(o.pulls + rest.1)[image] == multiset(o.pulls)[image] + multiset(rest.1)[image];
          if o.pulls != [] {
            assert o.cache == cache + {payloads[0].image};
          }
        }
      }
    }
  }

  /** The Docker daemon as the workload manager sees it: it records every
      pull, and answers each with success or failure as it sees fit. */
  class DockerClient {
    var pulls: seq<string>

    constructor ()
      ensures pulls == []
    {
      pulls := [];
    }

    method ImagePull(image: string) returns (ok: bool)
      modifies this
      ensures pulls == old(pulls) + [image]
    {
      pulls := pulls + [image];
      ok :| true;
    }
  }

  class WorkloadManager {
    /** The cache of images known to be pulled (pessimistic: never shrinks). */
    var pulledImages: set<string>
    var supportedWorkloads: set<string>
    /** The package-level Docker client, created by Init when docker is supported. */
    var client: DockerClient?

    ghost predicate Valid()
      reads this
    {
      && supportedWorkloads <= KnownTypes
      && (DockerWorkload in supportedWorkloads ==> client != null)
    }

    /** Every pull sent to the daemon so far. */
    ghost function PullLog(): seq<string>
      reads this, client
    {
      if client == null then [] else client.pulls
    }

    /** The manager Init first allocates: an empty cache and a nil map of
        supported workloads. */
    constructor ()
      ensures pulledImages == {} && supportedWorkloads == {} && client == null
    {
      pulledImages := {};
      supportedWorkloads := {};
      client := null;
    }

    /** StartDockerWorkload: the supported check, then the payload check,
        then the image cache, pulling the image on a miss. */
    method StartDockerWorkload(w: Workload) returns (err: Option<Error>)
      requires Valid()
      modifies this`pulledImages, client
      ensures Valid()
      ensures exists pullSucceeds: bool ::
                var o := DockerStart(old(supportedWorkloads), old(pulledImages), w.payload, pullSucceeds);
                err == o.err && pulledImages == o.cache && PullLog() == old(PullLog()) + o.pulls
    {
      if DockerWorkload !in supportedWorkloads {
        assert DockerStart(supportedWorkloads, pulledImages, w.payload, true).cache == pulledImages;
        return Some(UnsupportedWorkloadType);
      }
      if !w.payload.DockerPayload? {
        assert DockerStart(supportedWorkloads, pulledImages, w.payload, true).cache == pulledImages;
        return Some(UnknownPayload);
      }
      var image := w.payload.image;
      if image !in pulledImages {
        var ok := client.ImagePull(image);
        if !ok {
          assert DockerStart(supportedWorkloads, pulledImages, w.payload, false).cache == pulledImages;
          return Some(ImagePullFailed(image));
        }
        assert DockerStart(supportedWorkloads, pulledImages, w.payload, true).pulls == [image];
        pulledImages := pulledImages + {image};
      } else {
        assert DockerStart(supportedWorkloads, pulledImages, w.payload, true).pulls == [];
      }
      return None;
    }

    /** StartWorkload: dev workloads start at once whatever is configured,
        docker workloads go through StartDockerWorkload, and every other
        type (firecracker included) is unknown. */
    method StartWorkload(w: Workload, idSuffix: string) returns (workloadID: string, err: Option<Error>)
      requires Valid()
      modifies this`pulledImages, client
      ensures Valid()
      ensures w.workloadType == DevWorkload ==>
                && workloadID == WorkloadIDPrefix + idSuffix && err == None
                && pulledImages == old(pulledImages) && PullLog() == old(PullLog())
      ensures w.workloadType != DevWorkload && w.workloadType != DockerWorkload ==>
                && workloadID == "" && err == Some(UnknownWorkloadType)
                && pulledImages == old(pulledImages) && PullLog() == old(PullLog())
      ensures w.workloadType == DockerWorkload ==>
                exists pullSucceeds: bool ::
                  var o := DockerStart(old(supportedWorkloads), old(pulledImages), w.payload, pullSucceeds);
                  && pulledImages == o.cache && PullLog() == old(PullLog()) + o.pulls
                  && (o.err == None ==> workloadID == WorkloadIDPrefix + idSuffix && err == None)
                  && (o.err.Some? ==> workloadID == "" && err == Some(StartDockerWorkloadFailed(o.err.value)))
    {
      workloadID := WorkloadIDPrefix + idSuffix;
      if w.workloadType == DevWorkload {
        return workloadID, None;
      } else if w.workloadType == DockerWorkload {
        var dockerErr := StartDockerWorkload(w);
        if dockerErr.Some? {
          return "", Some(StartDockerWorkloadFailed(dockerErr.value));
        }
        return workloadID, None;
      } else {
        return "", Some(UnknownWorkloadType);
      }
    }
  }

  /** Init: allocates the manager, runs the preinstalled-images loop and the
      supported-workloads loop (both as intended), and creates the Docker
      client when docker is supported; clientAvailable is whether the daemon
      can be reached. On an error the manager is left as far as Init got. */
  method Init(supportedConfig: string, preinstalledConfig: string, clientAvailable: bool)
    returns (m: WorkloadManager, err: Option<Error>)
    ensures fresh(m)
    ensures m.pulledImages == PreinstalledImages(preinstalledConfig)
    ensures m.supportedWorkloads == ParseSupported(supportedConfig).supported
    ensures ParseSupported(supportedConfig).err.Some? ==>
              err == ParseSupported(supportedConfig).err && m.client == null
    ensures ParseSupported(supportedConfig).err == None && DockerWorkload in m.supportedWorkloads ==>
              if clientAvailable then err == None && m.client != null && fresh(m.client) && m.client.pulls == []
              else err == Some(DockerClientInitFailed) && m.client == null
    ensures ParseSupported(supportedConfig).err == None && DockerWorkload !in m.supportedWorkloads ==>
              err == None && m.client == null
    ensures err == None ==> m.Valid()
  {
    m := new WorkloadManager();
    var images := SeedPreinstalledImages(m.pulledImages, preinstalledConfig);
    m.pulledImages := images;
    var supported, parseErr := ParseSupportedWorkloads(supportedConfig);
    m.supportedWorkloads := supported;
    if parseErr.Some? {
      return m, parseErr;
    }
    if DockerWorkload in m.supportedWorkloads {
      if !clientAvailable {
        return m, Some(DockerClientInitFailed);
      }
      m.client := new DockerClient();
    }
    return m, None;
  }
}
