/** The attestation agent as a state machine. Each public operation is a pure
    transition from one `AgentState` to the next. Everything the agent asks of
    a collaborator enters as a parameter: the outcome of the attester's
    register extension and of the log write, the configuration parser, the
    token getters and the attester's evidence and init-data checks. */
module Agent {
  import opened Wrappers
  import opened HashAlgorithms
  import opened Eventlog

  /** Register used when a caller names none: PCR 17, the dynamic root of
      trust for measurement. */
  const DefaultPcrIndex: u64 := 17

  datatype TokenType = Kbs | CoCoAs

  /** Settings of one token backend, as read from the configuration. */
  datatype BackendConfig = BackendConfig(settings: map<string, string>)

  datatype TokenConfigs = TokenConfigs(kbs: BackendConfig, coCoAs: BackendConfig)

  datatype Config = Config(eventlogAlgorithm: HashAlgorithm, initPcr: u64, tokenConfigs: TokenConfigs)

  /** One register extension: which register, with which digest. */
  datatype Extension = Extension(index: u64, digest: Digest)

  /** The agent's state. `history` has no counterpart in the program: it
      records every extension the attester accepted, in order, so that the
      log and the registers can be compared against it. */
  datatype AgentState = AgentState(
    config: Config,
    registers: Registers,
    log: seq<string>,
    history: seq<Extension>)

  /** The outcome of one step performed by a collaborator. */
  datatype Outcome = Done | Failed(cause: string)

  datatype InitdataResult = Match | Mismatch | Unsupported

  datatype Error =
    | ExtendFailed(cause: string)
    | WriteFailed(cause: string)
    | TempFileFailed(cause: string)
    | ConfigInvalid(cause: string)
    | UnsupportedTokenType(tokenType: string)
    | CollaboratorFailed(cause: string)
    | Context(message: string, inner: Error)

  datatype Transition<T> = Transition(state: AgentState, result: Result<T, Error>)

  /** What the guarded section reports. */
  datatype Guarded = Committed | ExtendRejected(cause: string) | WriteRejected(cause: string)

  /** The agent as built from `config`: every register at its reset value
      and an empty log. */
  function New(config: Config): (s: AgentState)
    ensures s.config == config
    ensures s.log == [] && s.history == []
    ensures forall i: u64 :: Chain(s.registers, i) == []
  {
    AgentState(config, map[], [], [])
  }

  /** The section run under the event-log lock: extend register `index` with
      `digest`, and only then append `line` to the log. A rejected extension
      leaves everything as it was; a rejected write after an accepted
      extension leaves the register extended and the log behind it. */
  function ExtendThenLog(s: AgentState, index: u64, digest: Digest, line: string, extend: Outcome, write: Outcome)
    : (r: (AgentState, Guarded))
    ensures r.1.ExtendRejected? <==> extend.Failed?
    ensures r.1.Committed? <==> extend.Done? && write.Done?
    ensures r.1.WriteRejected? <==> extend.Done? && write.Failed?
    ensures extend.Failed? ==> r.0 == s && r.1.cause == extend.cause
    ensures extend.Done? && write.Failed? ==> r.1.cause == write.cause
    ensures r.0.config == s.config
    ensures extend.Done? ==> r.0.history == s.history + [Extension(index, digest)]
    ensures extend.Done? ==> Chain(r.0.registers, index) == Chain(s.registers, index) + [digest]
    ensures forall j: u64 :: j != index ==> Chain(r.0.registers, j) == Chain(s.registers, j)
    ensures r.1.Committed? ==> r.0.log == s.log + [line]
    ensures !r.1.Committed? ==> r.0.log == s.log
  {
    match extend
    case Failed(cause) => (s, ExtendRejected(cause))
    case Done =>
      var extended := s.(registers := Extend(s.registers, index, digest),
                         history := s.history + [Extension(index, digest)]);
      match write
      case Failed(cause) => (extended, WriteRejected(cause))
      case Done => (extended.(log := s.log + [line]), Committed)
  }

  /** The INIT entry for `alg`, spelled out as the agent does: the word INIT,
      the algorithm name, a slash and the all-zero digest in hexadecimal. */
  function InitEntry(alg: HashAlgorithm): string {
    match alg
    case Sha256 => "INIT sha256/0000000000000000000000000000000000000000000000000000000000000000"
    case Sha384 => "INIT sha384/000000000000000000000000000000000000000000000000000000000000000000000000000000000000000000000000"
    case Sha512 => "INIT sha512/00000000000000000000000000000000000000000000000000000000000000000000000000000000000000000000000000000000000000000000000000000000"
  }

  /** Zeros appended in two runs are one longer run. */
  lemma MoreZeros(e: string, p: string, q: string, m: nat)
    requires e == p + ZeroHex(32)
    requires p == q + ZeroHex(m)
    ensures e == q + ZeroHex(m + 32)
  {
  }

  /* The INIT literals are too long for the solver to compare with a computed
     string in one go. Each lemma below splits off the last 32 zero digits of
     one literal; the layout lemmas chain the pieces. */

  lemma Sha256Split1()
    ensures InitEntry(Sha256) == "INIT sha256/00000000000000000000000000000000" + ZeroHex(32)
  {
  }

  lemma Sha256Split2()
    ensures "INIT sha256/00000000000000000000000000000000" == "INIT sha256/" + ZeroHex(32)
  {
  }

  lemma Sha256InitLayout()
    ensures InitEntry(Sha256) == "INIT sha256/" + ZeroHex(64)
  {
    Sha256Split1();
    Sha256Split2();
    MoreZeros(InitEntry(Sha256), "INIT sha256/00000000000000000000000000000000", "INIT sha256/", 32);
  }

  lemma Sha384Split1()
    ensures InitEntry(Sha384) == "INIT sha384/0000000000000000000000000000000000000000000000000000000000000000" + ZeroHex(32)
  {
  }

  lemma Sha384Split2()
    ensures "INIT sha384/0000000000000000000000000000000000000000000000000000000000000000" == "INIT sha384/00000000000000000000000000000000" + ZeroHex(32)
  {
  }

  lemma Sha384Split3()
    ensures "INIT sha384/00000000000000000000000000000000" == "INIT sha384/" + ZeroHex(32)
  {
  }

  lemma Sha384InitLayout()
    ensures InitEntry(Sha384) == "INIT sha384/" + ZeroHex(96)
  {
    Sha384Split1();
    Sha384Split2();
    Sha384Split3();
    MoreZeros("INIT sha384/0000000000000000000000000000000000000000000000000000000000000000", "INIT sha384/00000000000000000000000000000000", "INIT sha384/", 32);
    MoreZeros(InitEntry(Sha384), "INIT sha384/0000000000000000000000000000000000000000000000000000000000000000", "INIT sha384/", 64);
  }

  lemma Sha512Split1()
    ensures InitEntry(Sha512) == "INIT sha512/000000000000000000000000000000000000000000000000000000000000000000000000000000000000000000000000" + ZeroHex(32)
  {
  }

  lemma Sha512Split2()
    ensures "INIT sha512/000000000000000000000000000000000000000000000000000000000000000000000000000000000000000000000000" == "INIT sha512/0000000000000000000000000000000000000000000000000000000000000000" + ZeroHex(32)
  {
  }

  lemma Sha512Split3()
    ensures "INIT sha512/0000000000000000000000000000000000000000000000000000000000000000" == "INIT sha512/00000000000000000000000000000000" + ZeroHex(32)
  {
  }

  lemma Sha512Split4()
    ensures "INIT sha512/00000000000000000000000000000000" == "INIT sha512/" + ZeroHex(32)
  {
  }

  lemma Sha512InitLayout()
    ensures InitEntry(Sha512) == "INIT sha512/" + ZeroHex(128)
  {
    Sha512Split1();
    Sha512Split2();
    Sha512Split3();
    Sha512Split4();
    MoreZeros("INIT sha512/0000000000000000000000000000000000000000000000000000000000000000", "INIT sha512/00000000000000000000000000000000", "INIT sha512/", 32);
    MoreZeros("INIT sha512/000000000000000000000000000000000000000000000000000000000000000000000000000000000000000000000000", "INIT sha512/0000000000000000000000000000000000000000000000000000000000000000", "INIT sha512/", 64);
    MoreZeros(InitEntry(Sha512), "INIT sha512/000000000000000000000000000000000000000000000000000000000000000000000000000000000000000000000000", "INIT sha512/", 96);
  }

  /** The INIT entry is the algorithm's name followed by exactly as many zero
      digits as the algorithm's digest has hexadecimal digits. */
  lemma InitEntryLayout(alg: HashAlgorithm)
    ensures InitEntry(alg) == "INIT " + Name(alg) + "/" + ZeroHex(2 * DigestSize(alg))
    ensures |InitEntry(alg)| == 12 + 2 * Hash(alg, InitEntry(alg)).Size()
  {
    match alg
    case Sha256 =>
      Sha256InitLayout();
      assert "INIT " + Name(alg) + "/" == "INIT sha256/";
    case Sha384 =>
      Sha384InitLayout();
      assert "INIT " + Name(alg) + "/" == "INIT sha384/";
    case Sha512 =>
      Sha512InitLayout();
      assert "INIT " + Name(alg) + "/" == "INIT sha512/";
  }

  /** `init`: extend the configured INIT register with the digest of the INIT
      entry, then log that same entry. */
  function Init(s: AgentState, extend: Outcome, write: Outcome): (r: Transition<()>)
    ensures r.state.config == s.config
    ensures extend.Failed? ==>
      r.state == s && r.result == Err(Context("write INIT entry", ExtendFailed(extend.cause)))
    ensures extend.Done? ==>
      var d := Hash(s.config.eventlogAlgorithm, InitEntry(s.config.eventlogAlgorithm));
      && r.state.history == s.history + [Extension(s.config.initPcr, d)]
      && Chain(r.state.registers, s.config.initPcr) == Chain(s.registers, s.config.initPcr) + [d]
    ensures forall j: u64 :: j != s.config.initPcr ==> Chain(r.state.registers, j) == Chain(s.registers, j)
    ensures extend.Done? && write.Failed? ==>
      r.state.log == s.log && r.result == Err(Context("write INIT log", WriteFailed(write.cause)))
    ensures r.result.Ok? <==> extend.Done? && write.Done?
    ensures r.result.Ok? ==> r.state.log == s.log + [InitEntry(s.config.eventlogAlgorithm)]
    ensures r.result.Ok? ==>
      var last := r.state.history[|r.state.history| - 1];
      && last.index == s.config.initPcr
      && last.digest == Hash(s.config.eventlogAlgorithm, r.state.log[|r.state.log| - 1])
  {
    var alg := s.config.eventlogAlgorithm;
    var entry := InitEntry(alg);
    var (s', g) := ExtendThenLog(s, s.config.initPcr, Hash(alg, entry), entry, extend, write);
    match g
    case ExtendRejected(cause) => Transition(s', Err(Context("write INIT entry", ExtendFailed(cause))))
    case WriteRejected(cause) => Transition(s', Err(Context("write INIT log", WriteFailed(cause))))
    case Committed => Transition(s', Ok(()))
  }

  /** `extend_runtime_measurement`: resolve the register (17 when none is
      given), extend it with the entry's digest, then log the entry. */
  function ExtendRuntimeMeasurement(
    s: AgentState, render: EventEntry -> string,
    domain: string, operation: string, content: string, registerIndex: Option<u64>,
    extend: Outcome, write: Outcome): (r: Transition<()>)
    ensures r.state.config == s.config
    ensures extend.Failed? ==> r.state == s && r.result == Err(ExtendFailed(extend.cause))
    ensures extend.Done? ==>
      var index := if registerIndex.Some? then registerIndex.value else 17;
      var d := Hash(s.config.eventlogAlgorithm, render(EventEntry(domain, operation, content)));
      && r.state.history == s.history + [Extension(index, d)]
      && Chain(r.state.registers, index) == Chain(s.registers, index) + [d]
      && (forall j: u64 :: j != index ==> Chain(r.state.registers, j) == Chain(s.registers, j))
    ensures extend.Done? && write.Failed? ==>
      r.state.log == s.log && r.result == Err(WriteFailed(write.cause))
    ensures r.result.Ok? <==> extend.Done? && write.Done?
    ensures r.result.Ok? ==> r.state.log == s.log + [render(EventEntry(domain, operation, content))]
    ensures r.result.Ok? ==>
      r.state.history[|r.state.history| - 1].digest
        == Hash(s.config.eventlogAlgorithm, r.state.log[|r.state.log| - 1])
  {
    var index := registerIndex.GetOr(DefaultPcrIndex);
    var entry := EventEntry(domain, operation, content);
    var d := DigestWith(entry, s.config.eventlogAlgorithm, render);
    var (s', g) := ExtendThenLog(s, index, d, render(entry), extend, write);
    match g
    case ExtendRejected(cause) => Transition(s', Err(ExtendFailed(cause)))
    case WriteRejected(cause) => Transition(s', Err(WriteFailed(cause)))
    case Committed => Transition(s', Ok(()))
  }

  /** The text left in the temporary file when `write` reports `written`
      characters: `write` may stop short, and its count is not checked, so
      only a prefix of `conf` may reach the parser. */
  function Stored(conf: string, written: nat): (t: string)
    ensures t <= conf
    ensures |t| == if written < |conf| then written else |conf|
  {
    if written < |conf| then conf[..written] else conf
  }

  /** `update_configuration`: write `conf` to a temporary file, parse what the
      file holds, and swap in the parsed configuration as a whole. `io` is the
      outcome of creating, writing and flushing the file; `written` is the
      count the single `write` call reports. */
  function UpdateConfiguration(
    s: AgentState, conf: string, io: Outcome, written: nat, parse: string -> Result<Config, string>)
    : (r: Transition<()>)
    ensures r.state.registers == s.registers && r.state.log == s.log && r.state.history == s.history
    ensures r.result.Ok? <==> io.Done? && parse(Stored(conf, written)).Ok?
    ensures r.result.Ok? ==> r.state.config == parse(Stored(conf, written)).value
    ensures r.result.Err? ==> r.state == s
    ensures io.Failed? ==> r.result == Err(TempFileFailed(io.cause))
    ensures io.Done? && parse(Stored(conf, written)).Err? ==>
      r.result == Err(ConfigInvalid(parse(Stored(conf, written)).error))
  {
    match io
    case Failed(cause) => Transition(s, Err(TempFileFailed(cause)))
    case Done =>
      match parse(Stored(conf, written))
      case Err(cause) => Transition(s, Err(ConfigInvalid(cause)))
      case Ok(config) => Transition(s.(config := config), Ok(()))
  }

  /** When the single `write` stores the whole text, the configuration is
      replaced by the parse of exactly `conf`. */
  lemma CompleteWriteParsesWholeText(
    s: AgentState, conf: string, written: nat, parse: string -> Result<Config, string>)
    requires written >= |conf|
    ensures parse(conf).Ok? ==> UpdateConfiguration(s, conf, Done, written, parse).state.config == parse(conf).value
    ensures parse(conf).Err? ==> UpdateConfiguration(s, conf, Done, written, parse).state == s
  {
  }

  /** The configuration a token getter of type `t` is built from. */
  function BackendFor(tokens: TokenConfigs, t: TokenType): BackendConfig {
    match t
    case Kbs => tokens.kbs
    case CoCoAs => tokens.coCoAs
  }

  /** `get_token`: resolve the token type and delegate to the getter built
      from that backend's configuration. The type names a build supports are
      decided by `parseTokenType`; a name it does not know is an error. */
  function GetToken(
    s: AgentState, tokenType: string,
    parseTokenType: string -> Option<TokenType>,
    fetch: (TokenType, BackendConfig) -> Result<seq<bv8>, string>): (r: Result<seq<bv8>, Error>)
    ensures parseTokenType(tokenType).None? <==>
      r == Err(Context("Unsupported token type", UnsupportedTokenType(tokenType)))
    ensures parseTokenType(tokenType).Some? ==>
      var got := fetch(parseTokenType(tokenType).value, BackendFor(s.config.tokenConfigs, parseTokenType(tokenType).value));
      && (r.Ok? <==> got.Ok?)
      && (r.Ok? ==> r.value == got.value)
      && (r.Err? ==> r.error == CollaboratorFailed(got.error))
  {
    match parseTokenType(tokenType)
    case None => Err(Context("Unsupported token type", UnsupportedTokenType(tokenType)))
    case Some(t) =>
      match fetch(t, BackendFor(s.config.tokenConfigs, t))
      case Ok(token) => Ok(token)
      case Err(cause) => Err(CollaboratorFailed(cause))
  }

  /** `get_evidence`: the attester's evidence for `runtimeData`, passed on
      unchanged. */
  function GetEvidence(runtimeData: seq<bv8>, evidence: seq<bv8> -> Result<seq<bv8>, string>)
    : (r: Result<seq<bv8>, Error>)
    ensures r.Ok? <==> evidence(runtimeData).Ok?
    ensures r.Ok? ==> r.value == evidence(runtimeData).value
    ensures r.Err? ==> r.error == CollaboratorFailed(evidence(runtimeData).error)
  {
    match evidence(runtimeData)
    case Ok(bytes) => Ok(bytes)
    case Err(cause) => Err(CollaboratorFailed(cause))
  }

  /** `check_init_data`: the attester's verdict on `initData`, passed on
      unchanged. */
  function CheckInitData(initData: seq<bv8>, check: seq<bv8> -> Result<InitdataResult, string>)
    : (r: Result<InitdataResult, Error>)
    ensures r.Ok? <==> check(initData).Ok?
    ensures r.Ok? ==> r.value == check(initData).value
    ensures r.Err? ==> r.error == CollaboratorFailed(check(initData).error)
  {
    match check(initData)
    case Ok(v) => Ok(v)
    case Err(cause) => Err(CollaboratorFailed(cause))
  }
}
