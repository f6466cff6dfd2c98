/** Sequences of calls to the agent, and the invariant that ties the event
    log to the measurement registers: both are views of one ordered history
    of extensions. Calls are taken one at a time; the event-log lock makes
    each extend-then-log section a single step. */
module Protocol {
  import opened Wrappers
  import opened HashAlgorithms
  import opened Eventlog
  import opened Agent

  /** The collaborators the agent talks to: the event log's canonical text,
      the configuration parser, the token module and the attester's
      read-only services. */
  datatype Collaborators = Collaborators(
    render: EventEntry -> string,
    parseConfig: string -> Result<Config, string>,
    parseTokenType: string -> Option<TokenType>,
    fetchToken: (TokenType, BackendConfig) -> Result<seq<bv8>, string>,
    evidence: seq<bv8> -> Result<seq<bv8>, string>,
    checkInitData: seq<bv8> -> Result<InitdataResult, string>)

  /** One call to the agent, with the outcomes of the steps its collaborators
      perform on the agent's behalf. */
  datatype Call =
    | InitCall(extend: Outcome, write: Outcome)
    | ExtendCall(domain: string, operation: string, content: string, registerIndex: Option<u64>,
                 extend: Outcome, write: Outcome)
    | UpdateConfigurationCall(conf: string, io: Outcome, written: nat)
    | GetTokenCall(tokenType: string)
    | GetEvidenceCall(runtimeData: seq<bv8>)
    | CheckInitDataCall(initData: seq<bv8>)
  {
    /** Calls that extend a register and log an entry. */
    predicate Extending() {
      InitCall? || ExtendCall?
    }

    /** An extending call whose extension the attester accepts. */
    predicate Accepted() {
      Extending() && extend.Done?
    }

    /** An accepted extension whose log line is also written. */
    predicate Committed() {
      Accepted() && write.Done?
    }

    /** An accepted extension whose log write fails. */
    predicate Diverging() {
      Accepted() && write.Failed?
    }
  }

  /** The line an extending call logs under configuration `config`: the INIT
      entry of the configured algorithm, or the event's canonical text. */
  function LineFor(config: Config, env: Collaborators, call: Call): string
    requires call.Extending()
  {
    match call
    case InitCall(_, _) => InitEntry(config.eventlogAlgorithm)
    case ExtendCall(domain, operation, content, _, _, _) => env.render(EventEntry(domain, operation, content))
  }

  /** The extension an extending call asks for under configuration `config`:
      the INIT register, or the caller's register with 17 as the fallback,
      with the configured algorithm's digest of the call's line. */
  function ExtensionFor(config: Config, env: Collaborators, call: Call): (e: Extension)
    requires call.Extending()
    ensures e.digest == Hash(config.eventlogAlgorithm, LineFor(config, env, call))
  {
    var index := match call
      case InitCall(_, _) => config.initPcr
      case ExtendCall(_, _, _, registerIndex, _, _) =>
        if registerIndex.Some? then registerIndex.value else 17;
    Extension(index, Hash(config.eventlogAlgorithm, LineFor(config, env, call)))
  }

  /** The configuration after `call`: only a configuration update whose file
      is written and whose stored text parses replaces it. */
  function NextConfig(config: Config, env: Collaborators, call: Call): Config {
    match call
    case UpdateConfigurationCall(conf, Done, written) =>
      var parsed := env.parseConfig(Stored(conf, written));
      if parsed.Ok? then parsed.value else config
    case _ => config
  }

  datatype Response = Unit | Bytes(bytes: seq<bv8>) | InitData(verdict: InitdataResult)

  function AsUnit(t: Transition<()>): Transition<Response> {
    match t.result
    case Ok(_) => Transition(t.state, Ok(Unit))
    case Err(e) => Transition(t.state, Err(e))
  }

  function Unchanged<T>(s: AgentState, r: Result<T, Error>, wrap: T -> Response): Transition<Response> {
    match r
    case Ok(v) => Transition(s, Ok(wrap(v)))
    case Err(e) => Transition(s, Err(e))
  }

  /** One call. The log gains exactly the call's own line, at its end, when
      the call commits; the history gains exactly the call's own extension
      when the attester accepts it; the read-only calls change nothing. */
  function Step(s: AgentState, env: Collaborators, call: Call): (r: Transition<Response>)
    ensures r.state.config == NextConfig(s.config, env, call)
    ensures r.state.log == s.log + (if call.Committed() then [LineFor(s.config, env, call)] else [])
    ensures r.state.history == s.history + (if call.Accepted() then [ExtensionFor(s.config, env, call)] else [])
    ensures !call.Extending() ==> r.state.registers == s.registers
    ensures call.GetTokenCall? || call.GetEvidenceCall? || call.CheckInitDataCall? ==> r.state == s
    ensures call.Extending() ==> (r.result.Ok? <==> call.Committed())
    ensures call.Extending() && call.extend.Failed? ==> r.state == s
  {
    match call
    case InitCall(extend, write) => AsUnit(Init(s, extend, write))
    case ExtendCall(domain, operation, content, index, extend, write) =>
      AsUnit(ExtendRuntimeMeasurement(s, env.render, domain, operation, content, index, extend, write))
    case UpdateConfigurationCall(conf, io, written) => AsUnit(UpdateConfiguration(s, conf, io, written, env.parseConfig))
    case GetTokenCall(tokenType) =>
      Unchanged(s, GetToken(s, tokenType, env.parseTokenType, env.fetchToken), b => Bytes(b))
    case GetEvidenceCall(data) => Unchanged(s, GetEvidence(data, env.evidence), b => Bytes(b))
    case CheckInitDataCall(data) => Unchanged(s, CheckInitData(data, env.checkInitData), v => InitData(v))
  }

  /** Number of calls in `calls` that extend and log. */
  function CountExtending(calls: seq<Call>): nat {
    if calls == [] then 0 else (if calls[0].Extending() then 1 else 0) + CountExtending(calls[1..])
  }

  /** Runs `calls` in order, returning the final state and each call's
      result. Nothing is ever removed from the log or the history. */
  function Run(s: AgentState, env: Collaborators, calls: seq<Call>): (r: (AgentState, seq<Result<Response, Error>>))
    ensures |r.1| == |calls|
    ensures s.log <= r.0.log && s.history <= r.0.history
    ensures |r.0.log| <= |s.log| + CountExtending(calls)
    decreases |calls|
  {
    if calls == [] then (s, [])
    else
      var t := Step(s, env, calls[0]);
      var rest := Run(t.state, env, calls[1..]);
      (rest.0, [t.result] + rest.1)
  }

  predicate AllOk(results: seq<Result<Response, Error>>) {
    forall k :: 0 <= k < |results| ==> results[k].Ok?
  }

  /** No call in `calls` is an accepted extension whose write fails. */
  predicate NoDivergence(calls: seq<Call>) {
    forall k :: 0 <= k < |calls| ==> !calls[k].Diverging()
  }

  /** The lines a run of `calls` starting under `config` must append to the
      log: the line of each committed call, in call order. */
  function ExpectedLines(config: Config, env: Collaborators, calls: seq<Call>): seq<string>
    decreases |calls|
  {
    if calls == [] then []
    else
      (if calls[0].Committed() then [LineFor(config, env, calls[0])] else [])
      + ExpectedLines(NextConfig(config, env, calls[0]), env, calls[1..])
  }

  /** The extensions a run of `calls` starting under `config` must apply: the
      extension of each accepted call, in call order. */
  function ExpectedExtensions(config: Config, env: Collaborators, calls: seq<Call>): seq<Extension>
    decreases |calls|
  {
    if calls == [] then []
    else
      (if calls[0].Accepted() then [ExtensionFor(config, env, calls[0])] else [])
      + ExpectedExtensions(NextConfig(config, env, calls[0]), env, calls[1..])
  }

  /** The digests extended into register `index`, in the order they were
      extended. */
  function Projection(h: seq<Extension>, index: u64): seq<Digest> {
    if h == [] then []
    else (if h[0].index == index then [h[0].digest] else []) + Projection(h[1..], index)
  }

  /** Every register holds exactly the digests the history sent to it. */
  ghost predicate RegistersReflectHistory(s: AgentState) {
    forall i: u64 :: Chain(s.registers, i) == Projection(s.history, i)
  }

  /** The log and the history correspond one to one, in order: the k-th
      extension's digest is the digest of the k-th log line. */
  ghost predicate LogMatchesHistory(s: AgentState) {
    && |s.log| == |s.history|
    && forall k :: 0 <= k < |s.log| ==> s.history[k].digest == Hash(s.history[k].digest.alg, s.log[k])
  }

  ghost predicate Coherent(s: AgentState) {
    RegistersReflectHistory(s) && LogMatchesHistory(s)
  }

  /** Replays the log: hashes each line with the algorithm its extension used
      and keeps the lines whose extension went to `index`. The log line does
      not name its register, so the placement is taken from the history. */
  function ReplayLog(log: seq<string>, h: seq<Extension>, index: u64): seq<Digest>
    requires |log| == |h|
  {
    if log == [] then []
    else (if h[0].index == index then [Hash(h[0].digest.alg, log[0])] else []) + ReplayLog(log[1..], h[1..], index)
  }

  lemma {:induction false} ProjectionAppend(h: seq<Extension>, e: Extension, index: u64)
    ensures Projection(h + [e], index) == Projection(h, index) + (if e.index == index then [e.digest] else [])
    decreases |h|
  {
    if h == [] {
      assert [] + [e] == [e];
    } else {
      var head := if h[0].index == index then [h[0].digest] else [];
      var tail := if e.index == index then [e.digest] else [];
      assert (h + [e])[0] == h[0] && (h + [e])[1..] == h[1..] + [e];
      assert Projection(h + [e], index) == head + Projection(h[1..] + [e], index);
      ProjectionAppend(h[1..], e, index);
      assert head + (Projection(h[1..], index) + tail) == (head + Projection(h[1..], index)) + tail;
    }
  }

  /** A freshly built agent is coherent: no register extended, nothing
      logged. */
  lemma NewIsCoherent(config: Config)
    ensures Coherent(New(config))
  {
  }

  /** Every call, successful or not, keeps the registers equal to what the
      history sent them: an extension is never applied without being
      recorded, nor recorded without being applied. */
  lemma StepKeepsRegistersReflectingHistory(s: AgentState, env: Collaborators, call: Call)
    requires RegistersReflectHistory(s)
    ensures RegistersReflectHistory(Step(s, env, call).state)
  {
    var s' := Step(s, env, call).state;
    if s'.history != s.history {
      var e := s'.history[|s'.history| - 1];
      assert s'.history == s.history + [e];
      forall i: u64
        ensures Chain(s'.registers, i) == Projection(s'.history, i)
      {
        ProjectionAppend(s.history, e, i);
      }
    }
  }

  /** A call that succeeds keeps the log in step with the history. */
  lemma StepSuccessKeepsLogMatchingHistory(s: AgentState, env: Collaborators, call: Call)
    requires LogMatchesHistory(s)
    ensures Step(s, env, call).result.Ok? ==> LogMatchesHistory(Step(s, env, call).state)
  {
  }

  /** An extension the attester accepts followed by a failed log write leaves
      the agent diverged, and the divergence is visible: the history, and so
      the registers, are one extension ahead of the log. */
  lemma WriteFailureDiverges(s: AgentState, env: Collaborators, call: Call)
    requires Coherent(s)
    requires call.Diverging()
    ensures Step(s, env, call).result.Err?
    ensures RegistersReflectHistory(Step(s, env, call).state)
    ensures |Step(s, env, call).state.history| == |Step(s, env, call).state.log| + 1
    ensures !LogMatchesHistory(Step(s, env, call).state)
  {
    StepKeepsRegistersReflectingHistory(s, env, call);
  }

  /** From a coherent agent, a call leaves the agent coherent exactly when it
      is not an accepted extension with a failed write. Rejected extensions,
      failed configuration updates and unknown token types all keep the log
      and the registers in step. */
  lemma StepKeepsCoherence(s: AgentState, env: Collaborators, call: Call)
    requires Coherent(s)
    ensures Coherent(Step(s, env, call).state) <==> !call.Diverging()
  {
    StepKeepsRegistersReflectingHistory(s, env, call);
    if call.Diverging() {
      WriteFailureDiverges(s, env, call);
    }
  }

  /** Over a run with no diverging call the agent stays coherent, and a run
      in which every call succeeds has no diverging call. */
  lemma {:induction false} RunKeepsCoherence(s: AgentState, env: Collaborators, calls: seq<Call>)
    requires Coherent(s)
    ensures AllOk(Run(s, env, calls).1) ==> NoDivergence(calls)
    ensures NoDivergence(calls) ==> Coherent(Run(s, env, calls).0)
    decreases |calls|
  {
    if calls != [] {
      var t := Step(s, env, calls[0]);
      var r := Run(s, env, calls);
      var rest := Run(t.state, env, calls[1..]);
      assert r.1 == [t.result] + rest.1;
      StepKeepsCoherence(s, env, calls[0]);
      if !calls[0].Diverging() {
        RunKeepsCoherence(t.state, env, calls[1..]);
        if AllOk(r.1) {
          assert AllOk(rest.1) by {
            forall k | 0 <= k < |rest.1| ensures rest.1[k].Ok? {
              assert rest.1[k] == r.1[k + 1];
            }
          }
        }
        if NoDivergence(calls) {
          assert NoDivergence(calls[1..]) by {
            forall k | 0 <= k < |calls[1..]| ensures !calls[1..][k].Diverging() {
              assert calls[1..][k] == calls[k + 1];
            }
          }
        }
        assert NoDivergence(calls[1..]) ==> NoDivergence(calls) by {
          if NoDivergence(calls[1..]) {
            forall k | 0 <= k < |calls| ensures !calls[k].Diverging() {
              if k > 0 { assert calls[k] == calls[1..][k - 1]; }
            }
          }
        }
      } else {
        assert r.1[0] == t.result;
      }
    }
  }

  lemma Associate<T>(a: seq<T>, b: seq<T>, c: seq<T>)
    ensures (a + b) + c == a + (b + c)
  {
  }

  /** Whatever the outcomes, a run appends to the log exactly the lines of
      its committed calls, in call order. */
  lemma {:induction false} RunLogsInCallOrder(s: AgentState, env: Collaborators, calls: seq<Call>)
    ensures Run(s, env, calls).0.log == s.log + ExpectedLines(s.config, env, calls)
    decreases |calls|
  {
    if calls == [] {
      assert s.log + [] == s.log;
    } else {
      var t := Step(s, env, calls[0]);
      var line := if calls[0].Committed() then [LineFor(s.config, env, calls[0])] else [];
      var later := ExpectedLines(t.state.config, env, calls[1..]);
      RunLogsInCallOrder(t.state, env, calls[1..]);
      Associate(s.log, line, later);
    }
  }

  /** Whatever the outcomes, a run appends to the history exactly the
      extensions of its accepted calls, in call order. */
  lemma {:induction false} RunExtendsInCallOrder(s: AgentState, env: Collaborators, calls: seq<Call>)
    ensures Run(s, env, calls).0.history == s.history + ExpectedExtensions(s.config, env, calls)
    decreases |calls|
  {
    if calls == [] {
      assert s.history + [] == s.history;
    } else {
      var t := Step(s, env, calls[0]);
      var ext := if calls[0].Accepted() then [ExtensionFor(s.config, env, calls[0])] else [];
      var later := ExpectedExtensions(t.state.config, env, calls[1..]);
      RunExtendsInCallOrder(t.state, env, calls[1..]);
      Associate(s.history, ext, later);
    }
  }

  lemma {:induction false} RunKeepsRegisters(s: AgentState, env: Collaborators, calls: seq<Call>)
    requires RegistersReflectHistory(s)
    ensures RegistersReflectHistory(Run(s, env, calls).0)
    decreases |calls|
  {
    if calls != [] {
      StepKeepsRegistersReflectingHistory(s, env, calls[0]);
      RunKeepsRegisters(Step(s, env, calls[0]).state, env, calls[1..]);
    }
  }

  /** Replaying a log that is in step with the history gives, register by
      register, the digests the history sent there. */
  lemma {:induction false} ReplayFollowsHistory(log: seq<string>, h: seq<Extension>, index: u64)
    requires |log| == |h|
    requires forall k :: 0 <= k < |log| ==> h[k].digest == Hash(h[k].digest.alg, log[k])
    ensures ReplayLog(log, h, index) == Projection(h, index)
    decreases |log|
  {
    if log != [] {
      assert h[0].digest == Hash(h[0].digest.alg, log[0]);
      ReplayFollowsHistory(log[1..], h[1..], index);
    }
  }

  /** In a coherent agent, replaying the log reproduces every register. */
  lemma ReplayReproducesRegisters(s: AgentState, index: u64)
    requires Coherent(s)
    ensures Chain(s.registers, index) == ReplayLog(s.log, s.history, index)
  {
    ReplayFollowsHistory(s.log, s.history, index);
  }

  /** Every extension in `h` used algorithm `alg`. */
  predicate SingleAlgorithm(h: seq<Extension>, alg: HashAlgorithm) {
    forall k :: 0 <= k < |h| ==> h[k].digest.alg == alg
  }

  /** Replays the log as a verifier that knows one algorithm would: every
      line is hashed with `alg`; only the placement comes from the history. */
  function ReplayUnder(log: seq<string>, h: seq<Extension>, alg: HashAlgorithm, index: u64): seq<Digest>
    requires |log| == |h|
  {
    if log == [] then []
    else (if h[0].index == index then [Hash(alg, log[0])] else []) + ReplayUnder(log[1..], h[1..], alg, index)
  }

  /** When every extension used `alg`, replaying under `alg` is the same as
      replaying under each extension's own algorithm. */
  lemma {:induction false} ReplayUnderAgrees(log: seq<string>, h: seq<Extension>, alg: HashAlgorithm, index: u64)
    requires |log| == |h|
    requires SingleAlgorithm(h, alg)
    ensures ReplayUnder(log, h, alg, index) == ReplayLog(log, h, index)
    decreases |log|
  {
    if log != [] {
      assert h[0].digest.alg == alg;
      ReplayUnderAgrees(log[1..], h[1..], alg, index);
    }
  }

  /** In a coherent agent whose extensions all used the configured
      algorithm, replaying the log under that one algorithm reproduces every
      register. */
  lemma SingleAlgorithmReplayReproducesRegisters(s: AgentState, index: u64)
    requires Coherent(s)
    requires SingleAlgorithm(s.history, s.config.eventlogAlgorithm)
    ensures Chain(s.registers, index) == ReplayUnder(s.log, s.history, s.config.eventlogAlgorithm, index)
  {
    ReplayReproducesRegisters(s, index);
    ReplayUnderAgrees(s.log, s.history, s.config.eventlogAlgorithm, index);
  }

  /** Without configuration updates the configuration never changes, so every
      extension a run adds uses the algorithm the run started with. */
  lemma {:induction false} RunWithoutUpdateKeepsOneAlgorithm(s: AgentState, env: Collaborators, calls: seq<Call>)
    requires SingleAlgorithm(s.history, s.config.eventlogAlgorithm)
    requires forall k :: 0 <= k < |calls| ==> !calls[k].UpdateConfigurationCall?
    ensures Run(s, env, calls).0.config == s.config
    ensures SingleAlgorithm(Run(s, env, calls).0.history, s.config.eventlogAlgorithm)
    decreases |calls|
  {
    if calls != [] {
      var t := Step(s, env, calls[0]);
      assert !calls[0].UpdateConfigurationCall?;
      assert t.state.config == s.config;
      assert SingleAlgorithm(t.state.history, s.config.eventlogAlgorithm) by {
        if calls[0].Accepted() {
          var e := ExtensionFor(s.config, env, calls[0]);
          assert t.state.history == s.history + [e];
          forall k | 0 <= k < |t.state.history| ensures t.state.history[k].digest.alg == s.config.eventlogAlgorithm {
            if k < |s.history| { assert t.state.history[k] == s.history[k]; }
          }
        } else {
          assert t.state.history == s.history + [];
          assert t.state.history == s.history;
        }
      }
      assert forall k :: 0 <= k < |calls[1..]| ==> !calls[1..][k].UpdateConfigurationCall? by {
        forall k | 0 <= k < |calls[1..]| ensures !calls[1..][k].UpdateConfigurationCall? {
          assert calls[1..][k] == calls[k + 1];
        }
      }
      RunWithoutUpdateKeepsOneAlgorithm(t.state, env, calls[1..]);
    }
  }

  /** The run that switches algorithms: `init` under the first configuration,
      an update to the second, then a measurement with no register given. */
  function SwitchCalls(): seq<Call> {
    [InitCall(Done, Done), UpdateConfigurationCall("x", Done, 1),
     ExtendCall("workload", "start", "v1", None, Done, Done)]
  }

  /** A run of one or more calls is its first step followed by the rest. */
  lemma RunUnfold(s: AgentState, env: Collaborators, calls: seq<Call>)
    requires calls != []
    ensures
      var t := Step(s, env, calls[0]);
      var rest := Run(t.state, env, calls[1..]);
      Run(s, env, calls) == (rest.0, [t.result] + rest.1)
  {
  }

  /** The switching run's `init` under SHA-256. */
  lemma SwitchInit(c0: Config, env: Collaborators)
    requires c0.eventlogAlgorithm == Sha256 && c0.initPcr == 17
    ensures
      var t := Step(New(c0), env, InitCall(Done, Done));
      && t.result.Ok?
      && t.state.config == c0
      && t.state.log == [InitEntry(Sha256)]
      && t.state.history == [Extension(17, Hash(Sha256, InitEntry(Sha256)))]
  {
    var t := Step(New(c0), env, InitCall(Done, Done));
    assert t.state.log == [] + [InitEntry(Sha256)];
    assert t.state.history == [] + [Extension(17, Hash(Sha256, InitEntry(Sha256)))];
  }

  /** The switching run's configuration update to `c1`. */
  lemma SwitchUpdate(s: AgentState, c1: Config, env: Collaborators)
    requires env.parseConfig("x") == Ok(c1)
    ensures
      var t := Step(s, env, UpdateConfigurationCall("x", Done, 1));
      t.result.Ok? && t.state == s.(config := c1)
  {
    assert Stored("x", 1) == "x";
    var u := UpdateConfiguration(s, "x", Done, 1, env.parseConfig);
    assert u.result.Ok? && u.state.config == c1;
  }

  /** The switching run's measurement under SHA-384. */
  lemma SwitchMeasure(s: AgentState, env: Collaborators)
    requires s.config.eventlogAlgorithm == Sha384
    ensures
      var line := env.render(EventEntry("workload", "start", "v1"));
      var t := Step(s, env, ExtendCall("workload", "start", "v1", None, Done, Done));
      && t.result.Ok?
      && t.state.config == s.config
      && t.state.log == s.log + [line]
      && t.state.history == s.history + [Extension(17, Hash(Sha384, line))]
  {
  }

  /** The states the switching run goes through, call by call. */
  lemma SwitchRunState(c0: Config, c1: Config, env: Collaborators)
    requires c0.eventlogAlgorithm == Sha256 && c0.initPcr == 17
    requires c1.eventlogAlgorithm == Sha384
    requires env.parseConfig("x") == Ok(c1)
    ensures
      var r := Run(New(c0), env, SwitchCalls());
      var line := env.render(EventEntry("workload", "start", "v1"));
      && AllOk(r.1)
      && r.0.config == c1
      && r.0.log == [InitEntry(Sha256), line]
      && r.0.history == [Extension(17, Hash(Sha256, InitEntry(Sha256))), Extension(17, Hash(Sha384, line))]
  {
    var calls := SwitchCalls();
    var s0 := New(c0);
    var t1 := Step(s0, env, calls[0]);
    SwitchInit(c0, env);
    var t2 := Step(t1.state, env, calls[1]);
    SwitchUpdate(t1.state, c1, env);
    var t3 := Step(t2.state, env, calls[2]);
    SwitchMeasure(t2.state, env);
    var tail := calls[1..];
    assert tail[0] == calls[1] && tail[1..] == [calls[2]];
    var last := tail[1..];
    assert last[0] == calls[2] && last[1..] == [];
    RunUnfold(s0, env, calls);
    RunUnfold(t1.state, env, tail);
    RunUnfold(t2.state, env, last);
    assert Run(t3.state, env, last[1..]) == (t3.state, []);
    assert Run(s0, env, calls) == (t3.state, [t1.result] + ([t2.result] + ([t3.result] + [])));
    assert [t1.result] + ([t2.result] + ([t3.result] + [])) == [t1.result, t2.result, t3.result];
  }

  /** Two lines extended into one register under two different algorithms:
      no replay under one algorithm gives back that register's digests. */
  lemma MixedAlgorithmsDefeatReplay(a: string, b: string, alg: HashAlgorithm, index: u64)
    ensures
      var h := [Extension(index, Hash(Sha256, a)), Extension(index, Hash(Sha384, b))];
      ReplayUnder([a, b], h, alg, index) != Projection(h, index)
  {
    var h := [Extension(index, Hash(Sha256, a)), Extension(index, Hash(Sha384, b))];
    assert [a, b][1..] == [b] && h[1..] == [h[1]] && [b][1..] == [] && [h[1]][1..] == [];
    assert Projection([h[1]], index) == [Hash(Sha384, b)] + Projection([], index);
    assert Projection(h, index) == [Hash(Sha256, a)] + Projection([h[1]], index);
    assert ReplayUnder([b], [h[1]], alg, index) == [Hash(alg, b)] + ReplayUnder([], [], alg, index);
    assert ReplayUnder([a, b], h, alg, index) == [Hash(alg, a)] + ReplayUnder([b], [h[1]], alg, index);
    assert Projection(h, index)[1] == Hash(Sha384, b);
    assert ReplayUnder([a, b], h, alg, index)[0] == Hash(alg, a);
    assert ReplayUnder([a, b], h, alg, index)[1] == Hash(alg, b);
  }

  /** A configuration update can switch the algorithm in the middle of the
      log, and the log does not record the switch. After `init` under
      SHA-256 and a measurement under SHA-384, every call has succeeded and
      the agent is coherent, yet no replay under one algorithm reproduces
      register 17. */
  lemma AlgorithmSwitchMidLog(c0: Config, c1: Config, env: Collaborators, alg: HashAlgorithm)
    requires c0.eventlogAlgorithm == Sha256 && c0.initPcr == 17
    requires c1.eventlogAlgorithm == Sha384
    requires env.parseConfig("x") == Ok(c1)
    ensures
      var r := Run(New(c0), env, SwitchCalls());
      && AllOk(r.1)
      && Coherent(r.0)
      && r.0.config == c1
      && |r.0.history| == 2 && r.0.history[0].digest.alg == Sha256 && r.0.history[1].digest.alg == Sha384
      && Chain(r.0.registers, 17) != ReplayUnder(r.0.log, r.0.history, alg, 17)
  {
    var calls := SwitchCalls();
    var s0 := New(c0);
    SwitchRunState(c0, c1, env);
    NewIsCoherent(c0);
    assert NoDivergence(calls) by {
      forall k | 0 <= k < |calls| ensures !calls[k].Diverging() {}
    }
    RunKeepsCoherence(s0, env, calls);
    MixedAlgorithmsDefeatReplay(InitEntry(Sha256), env.render(EventEntry("workload", "start", "v1")), alg, 17);
  }

  /** A worked run: a fresh SHA-256 agent runs `init`, then measures one
      event without naming a register. The log holds the INIT line and the
      event's line, in that order; register 17 holds the event's digest, on
      top of the INIT digest when the INIT register is 17 as well. */
  lemma InitThenMeasure(config: Config, env: Collaborators)
    requires config.eventlogAlgorithm == Sha256
    ensures
      var entry := env.render(EventEntry("workload", "start", "v1"));
      var calls := [InitCall(Done, Done), ExtendCall("workload", "start", "v1", None, Done, Done)];
      var r := Run(New(config), env, calls);
      && AllOk(r.1)
      && r.0.log == ["INIT sha256/" + ZeroHex(64), entry]
      && r.0.history == [Extension(config.initPcr, Hash(Sha256, r.0.log[0])), Extension(17, Hash(Sha256, entry))]
      && Chain(r.0.registers, 17)
           == (if config.initPcr == 17 then [Hash(Sha256, r.0.log[0])] else []) + [Hash(Sha256, entry)]
  {
    Sha256InitLayout();
    var calls := [InitCall(Done, Done), ExtendCall("workload", "start", "v1", None, Done, Done)];
    var s0 := New(config);
    var t1 := Step(s0, env, calls[0]);
    var t2 := Step(t1.state, env, calls[1]);
    var tail := calls[1..];
    assert tail[0] == calls[1] && tail[1..] == [];
    assert Run(t2.state, env, tail[1..]) == (t2.state, []);
    assert Run(t1.state, env, tail) == (t2.state, [t2.result] + []);
    assert Run(s0, env, calls) == (t2.state, [t1.result] + ([t2.result] + []));
    assert [t1.result] + ([t2.result] + []) == [t1.result, t2.result];
    assert t1.state.log == [InitEntry(Sha256)];
    assert t2.state.log == [InitEntry(Sha256)] + [env.render(EventEntry("workload", "start", "v1"))];
  }
}
