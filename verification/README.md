# Attestation agent: the extend-then-log measurement protocol

This project models the core of the attestation agent of the confidential-containers guest
components (`attestation-agent/attestation-agent/src/lib.rs`). The agent keeps a hardware
measurement register and a local event log in lock-step. Every measured event is hashed with
the configured algorithm. The digest is extended into a register by the TEE attester, and then
the event's text is appended to the log. Under the event-log lock both happen as one step.

The model is a pure state machine over an immutable `AgentState`:

- `config`: the event-log hash algorithm, the INIT register (`init_pcr`) and the token-backend
  settings;
- `registers`: for each register index, the chain of digests extended into it (a register never
  extended is at its reset value, the empty chain);
- `log`: the lines written to the event log, in order;
- `history`: every extension the attester accepted, as `(index, digest)`, in order. It has no
  counterpart in the program; it is the reference against which the log and the registers are
  compared.

The operations that may change the agent (`init`, `extend_runtime_measurement`,
`update_configuration`) are functions from a state to a new state and a result. The read-only
calls (`get_token`, `get_evidence`, `check_init_data`) return only a result, and
`Protocol.Step` passes the state through unchanged for them. What the agent asks of a
collaborator enters as a parameter:

- the attester's extension and the log write each have an `Outcome` (`Done` or `Failed`);
- writing the new configuration to a temporary file has an `Outcome`;
- the configuration parser, the token-type parser, the token getters, the attester's evidence
  and init-data checks, and the event entry's canonical text (`render`) are functions.

Digests are symbolic: `Digest(alg, preimage)` records the algorithm and the exact text hashed.
Its size in bytes depends only on the algorithm (32, 48 or 64 bytes for SHA-256, SHA-384 and
SHA-512, per FIPS 180-4, section 1, Figure 1). This is the free interpretation of an
uninterpreted hash function. It lets "the digest extended is the digest of the line logged" be
stated exactly.

Files:

- `wrappers.dfy`: `Option` and `Result`.
- `hash.dfy`: the hash algorithms, digest sizes, symbolic digests.
- `eventlog.dfy`: event entries and the measurement registers.
- `agent.dfy`: the agent state and its operations.
- `protocol.dfy`: calls, runs of calls, and the invariant tying the log to the registers.

Facts about the code that the model keeps:

- `init` extends the configured `init_pcr` (lib.rs:103), not `DEFAULT_PCR_INDEX`.
- Nothing stops `init` from being called twice (lib.rs:85-109), and the model allows it.
- After an accepted extension, a failed log write is returned as an ordinary error
  (lib.rs:212-216). The model makes the divergence visible in the state
  (`Protocol.WriteFailureDiverges`) but, like the code, does not stop the agent.
- `update_configuration` writes the new text with one `write` call and ignores the count it
  returns (lib.rs:140). After a short write only a prefix of the text is in the file that is
  parsed (`Agent.Stored`).
- `update_configuration` replaces the whole configuration, the event-log algorithm included
  (lib.rs:138-154). Nothing re-runs `init` afterwards, and no log line records the switch. So
  one log can hold lines hashed under different algorithms: after `init` under SHA-256 and a
  measurement under SHA-384 every call succeeds and the agent is coherent, yet no replay of the
  log under a single algorithm reproduces the register (`Protocol.AlgorithmSwitchMidLog`).
  Replay under one algorithm is exact only while every extension used it
  (`Protocol.SingleAlgorithmReplayReproducesRegisters`), which a run without configuration
  updates preserves (`Protocol.RunWithoutUpdateKeepsOneAlgorithm`).

## Model

| member | source | states |
|---|---|---|
| `Eventlog.Extend` | attestation-agent/attestation-agent/src/lib.rs:212-214 | Extending a register appends the digest to that register's chain and leaves every other register as it was. |
| `Eventlog.ExtendOrderMatters` | attestation-agent/attestation-agent/src/lib.rs:210-216 | Two distinct digests extended into one register in opposite orders give different registers, which is why the log order must follow the extension order. |
| `Agent.New` | attestation-agent/attestation-agent/src/lib.rs:112-133 | A newly built agent keeps the given configuration, has an empty log and history, and every register is at its reset value. |
| `Agent.ExtendThenLog` | attestation-agent/attestation-agent/src/lib.rs:210-216 | The locked section. A rejected extension leaves the state unchanged and writes nothing. An accepted one adds exactly one `(index, digest)` extension to exactly that register and to the history. The log gets exactly the one line at its end only if the write also succeeds. If the write fails, the register stays extended and the log does not grow. |
| `Agent.InitEntryLayout` | attestation-agent/attestation-agent/src/lib.rs:88-92 | The INIT entry is `INIT `, the algorithm name, `/`, then only `0` digits, twice as many as the digest has bytes (64, 96 or 128). |
| `Agent.Sha256InitLayout` | attestation-agent/attestation-agent/src/lib.rs:89 | The SHA-256 INIT literal is `INIT sha256/` followed by 64 zeros. |
| `Agent.Sha384InitLayout` | attestation-agent/attestation-agent/src/lib.rs:90 | The SHA-384 INIT literal is `INIT sha384/` followed by 96 zeros. |
| `Agent.Sha512InitLayout` | attestation-agent/attestation-agent/src/lib.rs:91 | The SHA-512 INIT literal is `INIT sha512/` followed by 128 zeros. |
| `Agent.Init` | attestation-agent/attestation-agent/src/lib.rs:85-109 | `init` extends `init_pcr` with the configured algorithm's digest of the INIT entry: that register's chain gains the digest, and every other register is unchanged. On success, the last logged line is that same entry and the last extension's digest is the digest of that line. If the extension fails, the state is unchanged and the error carries the "write INIT entry" context. If the write fails, the log is unchanged and the error carries the "write INIT log" context. |
| `Agent.ExtendRuntimeMeasurement` | attestation-agent/attestation-agent/src/lib.rs:195-219 | The register is the caller's index unchanged, or 17 when none is given. On an accepted extension exactly that register gains the entry's digest. On success the entry's text is appended and is the preimage of the extended digest. A rejected extension changes nothing. A failed write after an accepted extension leaves the log as it was. |
| `Agent.Stored` | attestation-agent/attestation-agent/src/lib.rs:140 | The text left in the temporary file is the prefix of the new configuration text whose length is the count `write` reports, capped at the text's length. |
| `Agent.UpdateConfiguration` | attestation-agent/attestation-agent/src/lib.rs:138-154 | Succeeds exactly when the temporary file is written and the stored text parses. On success the configuration is replaced by the parsed value as a whole. On failure nothing changes. The log, registers and history never change. |
| `Agent.CompleteWriteParsesWholeText` | attestation-agent/attestation-agent/src/lib.rs:139-152 | When the one `write` stores the whole text, the new configuration is the parse of exactly that text; if it does not parse, nothing changes. |
| `Agent.GetToken` | attestation-agent/attestation-agent/src/lib.rs:164-181 | An unrecognised token type is exactly the "Unsupported token type" error. A recognised one returns the result of the getter built from that backend's own settings. |
| `Agent.GetEvidence` | attestation-agent/attestation-agent/src/lib.rs:184-187 | Returns the attester's evidence for the runtime data passed unchanged, or its error. |
| `Agent.CheckInitData` | attestation-agent/attestation-agent/src/lib.rs:223-225 | Returns the attester's verdict on the init data, or its error. |
| `Protocol.Step` | attestation-agent/attestation-agent/src/lib.rs:163-226 | The log gains exactly the call's own line at its end when the call commits. That line is the INIT entry of the current algorithm for `init`, or the event's canonical text for a measurement. The history gains exactly the call's own extension when the attester accepts it: `(init_pcr or the resolved index, digest of that line)`. The configuration changes only through a successful update. Other calls never touch the registers, and `get_token`, `get_evidence` and `check_init_data` leave the whole state unchanged. An extending call succeeds exactly when it commits, and a rejected extension changes nothing. |
| `Protocol.Run` | attestation-agent/attestation-agent/src/lib.rs:163-226 | A run of calls yields one result per call. It never removes or reorders log lines or extensions. It adds at most one line per extending call. |
| `Protocol.NewIsCoherent` | attestation-agent/attestation-agent/src/lib.rs:124-132 | A newly built agent satisfies the log/register invariant. |
| `Protocol.StepKeepsRegistersReflectingHistory` | attestation-agent/attestation-agent/src/lib.rs:85-226 | Whether a call succeeds or fails, every register holds exactly the digests the history sent to it, in order. |
| `Protocol.StepSuccessKeepsLogMatchingHistory` | attestation-agent/attestation-agent/src/lib.rs:207-216 | A successful call keeps the log in one-to-one, in-order correspondence with the history: the k-th extension's digest is the digest of the k-th line. |
| `Protocol.StepKeepsCoherence` | attestation-agent/attestation-agent/src/lib.rs:163-226 | From a coherent agent, a call leaves it coherent exactly when the call is not an accepted extension whose write fails. Rejected extensions, failed configuration updates and unknown token types keep log and registers in step. |
| `Protocol.WriteFailureDiverges` | attestation-agent/attestation-agent/src/lib.rs:212-216 | From a coherent state, an accepted extension followed by a failed write returns an error. The registers still match the history, but the history is one extension ahead of the log, so the log no longer matches. |
| `Protocol.RunKeepsRegisters` | attestation-agent/attestation-agent/src/lib.rs:210-216 | Over any run of calls, the registers keep matching the history. |
| `Protocol.RunKeepsCoherence` | attestation-agent/attestation-agent/src/lib.rs:163-226 | Over any run with no accepted extension whose write fails, log and history stay in one-to-one, in-order correspondence and the registers match the history. A run in which every call succeeds has no such call. |
| `Protocol.RunLogsInCallOrder` | attestation-agent/attestation-agent/src/lib.rs:207-216 | Whatever the outcomes, a run appends to the log exactly the lines of its committed calls, in call order. Each line is worked out under the configuration in force when its call runs. |
| `Protocol.RunExtendsInCallOrder` | attestation-agent/attestation-agent/src/lib.rs:202-214 | Whatever the outcomes, a run appends to the history exactly the extensions of its accepted calls, in call order: `init_pcr` or the resolved index, with the digest of that call's line. |
| `Protocol.ReplayFollowsHistory` | attestation-agent/attestation-agent/src/lib.rs:207-216 | Hashing each log line under its extension's algorithm gives, register by register, exactly the digests the history extended there. |
| `Protocol.ReplayReproducesRegisters` | attestation-agent/attestation-agent/src/lib.rs:207-216 | In a coherent agent, replaying the log reproduces every register's chain. The log line names neither its register nor its algorithm, so the replay takes both the placement and the hash algorithm of each line from the history. |
| `Protocol.SingleAlgorithmReplayReproducesRegisters` | attestation-agent/attestation-agent/src/lib.rs:85-226 | In a coherent agent whose extensions all used the configured algorithm, hashing every log line under that one algorithm, placed by the history, reproduces every register's chain. |
| `Protocol.RunWithoutUpdateKeepsOneAlgorithm` | attestation-agent/attestation-agent/src/lib.rs:163-226 | A run with no configuration update keeps the configuration unchanged, so every extension it adds uses the algorithm already in use. |
| `Protocol.AlgorithmSwitchMidLog` | attestation-agent/attestation-agent/src/lib.rs:138-154 | From a fresh SHA-256 agent, `init`, an update to a SHA-384 configuration and a measurement all succeed and leave the agent coherent. The history then holds a SHA-256 and a SHA-384 extension in register 17, and no replay of the log under any one algorithm equals that register. |
| `Protocol.InitThenMeasure` | attestation-agent/attestation-agent/src/lib.rs:85-219 | On a fresh SHA-256 agent, `init` followed by one measurement with no register given logs the INIT line (64 zeros) and then the event line. It extends `init_pcr` with the INIT digest and register 17 with the event digest, in that order. |

## Left out

- SHA-2 itself: digests are symbolic terms, so the model's hash never collides (`HashAlgorithms.HashInjective`). The algorithms live in the configuration module, which is not part of this model. Hashing the text's bytes (`as_bytes`) is taken as hashing the text.
- The event entry's canonical text and `digest_with` belong to the event-log module, which is not part of this model. The text is the parameter `render`, and `digest_with` is taken to hash that same text. So the claim that distinct `(domain, operation, content)` triples give distinct log lines is not stated.
- TEE detection and attester construction (lib.rs:124-125): the attester appears only through the outcomes and functions passed to each operation.
- Loading the configuration from a file or defaults in `new` (lib.rs:113-122): `Agent.New` takes the configuration already built.
- Agent.New: each PCR index the agent passes is its own register, starting at reset. The source lets each platform map PCR indices onto its architectural registers (lib.rs:192-194), so several indices may share one hardware register. The frame clauses of `Eventlog.Extend`, `Agent.Init`, `Agent.ExtendRuntimeMeasurement` and `Agent.ExtendThenLog`, and `Protocol.ReplayReproducesRegisters`, therefore hold per PCR index, not per hardware register. That the registers start at reset is only assumed by the source (lib.rs:86-87); an agent restarted over registers that already hold extensions is not modelled.
- Agent.UpdateConfiguration: `write` reports a count of bytes; the model counts characters of the text, so a short write that splits a multi-byte character is not modelled.
- `EventLog::new` and the log file: `Agent.New` never fails, although the source's `new` returns an error when `EventLog::new()` fails (lib.rs:126). The log starts empty, with no recovery of earlier entries. A write either appends the whole line or nothing.
- The `tokio` mutex and async scheduling (lib.rs:11, 100, 210): calls run one at a time, and each locked section is one transition.
- Temporary-file I/O in `update_configuration` is one outcome. The panic of the `expect` on the temporary file's path (lib.rs:148) is not modelled. The comment at lib.rs:149-150 argues only that the generated file name is alphanumeric. So the panic can be reached only through a temporary-directory path that is not valid Unicode, and the model does not represent file-system paths.
- Token getters' network protocols (lib.rs:170-178): a getter is a function of the token type and its backend settings. Compile-time feature selection is folded into the token-type parser.
- `InitdataResult` comes from the attester crate, which is not part of this model. It is modelled with three values: match, mismatch, unsupported.
- Logging via `info!`/`warn!`: it has no effect on state.
- Errors are modelled by kind and `anyhow` context messages only; error text is not modelled.
