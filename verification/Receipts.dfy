/** Three readers of the same receipt, each with its own loop over the logs, that are meant to tell the same story. */
module Receipts {
  import opened Base

  /** A log, as decoded. Logs without topics, or with a topic the relayer does not know, are skipped. `reason` is the
      text decoded from what a failed call returned. */
  datatype HubLog =
    | NoTopics
    | ContractDeployed(address: string)
    | TransactionRelayed(executed: bool, reason: string)
    | BadTransactionSent(code: nat, sender: Key)
    | Relayed
    | GasUsedByTransaction
    | Other

  datatype Receipt = Receipt(status: nat, contractAddress: string, logs: seq<HubLog>)

  /** Why a metatx failed, as the client is told. */
  datatype Reason = Reverted(reason: string) | RefusedByHub(code: nat) | NoCodeCreated

  datatype EventName = NameOfDeployed | NameOfTransactionRelayed | NameOfBadTransaction | NameOfRelayed | NameOfGasUsed

  /** How a metatx ended, for the settlement. */
  datatype Outcome = Outcome(events: seq<EventName>, executed: Option<bool>, errorCode: Option<nat>,
                             output: Option<Reason>, deployedAddress: Option<string>, hubRejected: bool)

  /** The receipt as it is shown to a JSON-RPC client. */
  datatype Shown = Shown(status: nat, contractAddress: string, revertReason: Option<Reason>)

  /** The parsed result a client can ask for. */
  datatype Result = Result(mined: bool, success: bool, executed: bool, errorCode: Option<nat>,
                           revertReason: Option<Reason>, deployedAddress: Option<string>)

  // ---------------------------------------------------------------- what the logs say

  /** A call that the hub made and that reverted, or a metatx that the hub refused. */
  predicate Failing(log: HubLog) { (log.TransactionRelayed? && !log.executed) || log.BadTransactionSent? }

  /** The hub verified a deploy whose constructor then reverted: nothing else is said about it. */
  predicate SilentDeploy(logs: seq<HubLog>) {
    && (exists log <- logs :: log.Relayed?)
    && (forall log <- logs :: !log.ContractDeployed? && !log.TransactionRelayed? && !log.BadTransactionSent?)
  }

  /** The metatx failed, whichever way it was. */
  predicate Failed(logs: seq<HubLog>) { (exists log <- logs :: Failing(log)) || SilentDeploy(logs) }

  /** The logs up to the last one for which `p` holds, or none. */
  function UpToLast(logs: seq<HubLog>, p: HubLog -> bool): (r: seq<HubLog>)
    ensures r == [] <==> forall log <- logs :: !p(log)
    ensures r <= logs && (r != [] ==> p(r[|r| - 1]))
    ensures forall log <- logs[|r|..] :: !p(log)
  {
    if logs == [] then []
    else
      var last := |logs| - 1;
      assert logs == logs[..last] + [logs[last]];
      if p(logs[last]) then logs else UpToLast(logs[..last], p)
  }

  function LastOf(logs: seq<HubLog>, p: HubLog -> bool): (r: Option<HubLog>)
    ensures r.None? <==> forall log <- logs :: !p(log)
    ensures r.Some? ==> p(r.value) && r.value in logs
  {
    var until := UpToLast(logs, p);
    if until == [] then None else Some(until[|until| - 1])
  }

  /** Says whether the call was executed. */
  predicate Judging(log: HubLog) { log.TransactionRelayed? || log.BadTransactionSent? }

  predicate Verdict(log: HubLog) { log.TransactionRelayed? && log.executed }

  predicate FailingRelay(log: HubLog) { log.TransactionRelayed? && !log.executed }

  predicate Refusal(log: HubLog) { log.BadTransactionSent? }

  predicate Deploying(log: HubLog) { log.ContractDeployed? }

  /** The address of the last contract deployed. */
  function Deployed(logs: seq<HubLog>): Option<string> {
    match LastOf(logs, Deploying)
    case Some(log) => Some(log.address)
    case None => None
  }

  /** The code of the last refusal. */
  function RefusalCode(logs: seq<HubLog>): Option<nat> {
    match LastOf(logs, Refusal)
    case Some(log) => Some(log.code)
    case None => None
  }

  function ReasonOf(log: HubLog): Reason
    requires Failing(log)
  {
    if log.TransactionRelayed? then Reverted(log.reason) else RefusedByHub(log.code)
  }

  /** The reason of the last failing log. */
  function FailureReason(logs: seq<HubLog>): Option<Reason> {
    match LastOf(logs, Failing)
    case Some(log) => Some(ReasonOf(log))
    case None => None
  }

  /** The reason of the last call that reverted. */
  function RevertReason(logs: seq<HubLog>): Option<Reason> {
    match LastOf(logs, FailingRelay)
    case Some(log) => Some(ReasonOf(log))
    case None => None
  }

  /** What the last judging log says. */
  function LastVerdict(logs: seq<HubLog>): Option<bool> {
    match LastOf(logs, Judging)
    case Some(log) => Some(Verdict(log))
    case None => None
  }

  /** The contract deployed according to these logs, or what the receipt itself carries. */
  function AddressIn(logs: seq<HubLog>, original: string): string {
    match Deployed(logs)
    case Some(address) => address
    case None => original
  }

  /** The senders whose chain of nonces is dropped while reading, in order. */
  function Rejected(logs: seq<HubLog>): seq<Key> {
    if logs == [] then []
    else
      var before := Rejected(logs[..|logs| - 1]);
      var log := logs[|logs| - 1];
      if log.BadTransactionSent? then before + [log.sender] else before
  }

  function Name(log: HubLog): Option<EventName> {
    match log
    case ContractDeployed(_) => Some(NameOfDeployed)
    case TransactionRelayed(_, _) => Some(NameOfTransactionRelayed)
    case BadTransactionSent(_, _) => Some(NameOfBadTransaction)
    case Relayed => Some(NameOfRelayed)
    case GasUsedByTransaction => Some(NameOfGasUsed)
    case _ => None
  }

  function Names(logs: seq<HubLog>): seq<EventName> {
    if logs == [] then []
    else
      var before := Names(logs[..|logs| - 1]);
      match Name(logs[|logs| - 1])
      case Some(name) => before + [name]
      case None => before
  }

  // ---------------------------------------------------------------- what each reader answers

  function OutcomeOf(logs: seq<HubLog>): Outcome {
    Outcome(
      Names(logs),
      if SilentDeploy(logs) then Some(false)
      else if LastVerdict(logs).Some? then LastVerdict(logs)
      else if Deployed(logs).Some? then Some(true)
      else None,
      RefusalCode(logs),
      if SilentDeploy(logs) then Some(NoCodeCreated) else RevertReason(logs),
      Deployed(logs),
      RefusalCode(logs).Some?)
  }

  function ResultOf(logs: seq<HubLog>): Result {
    Result(
      true,
      !Failed(logs),
      if SilentDeploy(logs) then false else LastVerdict(logs) != Some(false),
      RefusalCode(logs),
      if SilentDeploy(logs) then Some(NoCodeCreated) else FailureReason(logs),
      Deployed(logs))
  }

  /** A failed receipt is copied when its last failing log is read: a contract deployed after that is not in it. */
  function ShownOf(receipt: Receipt): Shown {
    var logs := receipt.logs;
    Shown(
      if Failed(logs) then 0 else receipt.status,
      AddressIn(if FailureReason(logs).Some? then UpToLast(logs, Failing) else logs, receipt.contractAddress),
      if SilentDeploy(logs) then Some(NoCodeCreated) else FailureReason(logs))
  }

  // ---------------------------------------------------------------- one more log

  lemma OneMoreRead(logs: seq<HubLog>, i: nat)
    requires i < |logs|
    ensures logs[..i + 1] == logs[..i] + [logs[i]]
  {
  }

  lemma LastOfOneMore(logs: seq<HubLog>, log: HubLog, p: HubLog -> bool)
    ensures UpToLast(logs + [log], p) == if p(log) then logs + [log] else UpToLast(logs, p)
    ensures LastOf(logs + [log], p) == if p(log) then Some(log) else LastOf(logs, p)
  {
  }

  lemma DeployedOneMore(logs: seq<HubLog>, log: HubLog)
    ensures Deployed(logs + [log]) == if log.ContractDeployed? then Some(log.address) else Deployed(logs)
  {
  }

  lemma OneMore(logs: seq<HubLog>, log: HubLog)
    ensures Deployed(logs + [log]) == if log.ContractDeployed? then Some(log.address) else Deployed(logs)
    ensures RefusalCode(logs + [log]) == if log.BadTransactionSent? then Some(log.code) else RefusalCode(logs)
    ensures FailureReason(logs + [log]) ==
      if log.BadTransactionSent? then Some(RefusedByHub(log.code))
      else if log.TransactionRelayed? && !log.executed then Some(Reverted(log.reason))
      else FailureReason(logs)
    ensures RevertReason(logs + [log]) ==
      if log.TransactionRelayed? && !log.executed then Some(Reverted(log.reason)) else RevertReason(logs)
    ensures LastVerdict(logs + [log]) ==
      if log.BadTransactionSent? then Some(false) else if log.TransactionRelayed? then Some(log.executed) else LastVerdict(logs)
    ensures Rejected(logs + [log]) == if log.BadTransactionSent? then Rejected(logs) + [log.sender] else Rejected(logs)
  {
    LastOfOneMore(logs, log, Deploying);
    LastOfOneMore(logs, log, Refusal);
    LastOfOneMore(logs, log, Failing);
    LastOfOneMore(logs, log, FailingRelay);
    LastOfOneMore(logs, log, Judging);
    assert (logs + [log])[..|logs|] == logs;
  }

  lemma OneMoreName(logs: seq<HubLog>, log: HubLog)
    ensures Names(logs + [log]) == match log
      case ContractDeployed(_) => Names(logs) + [NameOfDeployed]
      case TransactionRelayed(_, _) => Names(logs) + [NameOfTransactionRelayed]
      case BadTransactionSent(_, _) => Names(logs) + [NameOfBadTransaction]
      case Relayed => Names(logs) + [NameOfRelayed]
      case GasUsedByTransaction => Names(logs) + [NameOfGasUsed]
      case _ => Names(logs)
  {
  }

  /** Which of the four deciding events a reader has seen. */
  datatype Saw = Saw(contractDeployed: bool, transactionRelayed: bool, badTransaction: bool, relayed: bool)

  const NOTHING := Saw(false, false, false, false)

  /** The pattern of a deploy that failed in silence. */
  predicate OnlyVerified(saw: Saw) {
    saw.relayed && !saw.contractDeployed && !saw.transactionRelayed && !saw.badTransaction
  }

  ghost predicate Seen(logs: seq<HubLog>, saw: Saw) {
    && (saw.contractDeployed <==> exists log <- logs :: log.ContractDeployed?)
    && (saw.transactionRelayed <==> exists log <- logs :: log.TransactionRelayed?)
    && (saw.badTransaction <==> exists log <- logs :: log.BadTransactionSent?)
    && (saw.relayed <==> exists log <- logs :: log.Relayed?)
  }

  lemma SeenOneMore(logs: seq<HubLog>, log: HubLog, saw: Saw)
    requires Seen(logs, saw)
    ensures log.ContractDeployed? ==> Seen(logs + [log], saw.(contractDeployed := true))
    ensures log.TransactionRelayed? ==> Seen(logs + [log], saw.(transactionRelayed := true))
    ensures log.BadTransactionSent? ==> Seen(logs + [log], saw.(badTransaction := true))
    ensures log.Relayed? ==> Seen(logs + [log], saw.(relayed := true))
    ensures log.NoTopics? || log.GasUsedByTransaction? || log.Other? ==> Seen(logs + [log], saw)
  {
  }

  // ---------------------------------------------------------------- readHubEvents

  const NO_OUTCOME := Outcome([], None, None, None, None, false)

  /** What the loop of readHubEvents knows after reading `logs`. */
  ghost predicate Told(logs: seq<HubLog>, o: Outcome, forgotten: seq<Key>, saw: Saw) {
    && Seen(logs, saw)
    && o.events == Names(logs) && forgotten == Rejected(logs)
    && o.executed == LastVerdict(logs) && o.output == RevertReason(logs)
    && o.errorCode == RefusalCode(logs) && o.hubRejected == RefusalCode(logs).Some?
    && o.deployedAddress == Deployed(logs)
  }

  /** One turn of the loop: a refusal also drops what the relayer knows of that sender's nonces. */
  method TellLog(ghost before: seq<HubLog>, log: HubLog, outcome: Outcome, forgotten: seq<Key>, saw: Saw)
    returns (outcome': Outcome, forgotten': seq<Key>, saw': Saw)
    requires Told(before, outcome, forgotten, saw)
    ensures Told(before + [log], outcome', forgotten', saw')
  {
    hide Deployed, RefusalCode, FailureReason, RevertReason, LastVerdict, Names, Rejected, Seen;
    OneMore(before, log);
    OneMoreName(before, log);
    SeenOneMore(before, log, saw);
    outcome', forgotten', saw' := outcome, forgotten, saw;
    match log
    case ContractDeployed(address) =>
      saw' := saw.(contractDeployed := true);
      outcome' := outcome.(events := outcome.events + [NameOfDeployed], deployedAddress := Some(address));
    case TransactionRelayed(executed, reason) =>
      saw' := saw.(transactionRelayed := true);
      outcome' := outcome.(events := outcome.events + [NameOfTransactionRelayed], executed := Some(executed));
      if !executed {
        outcome' := outcome'.(output := Some(Reverted(reason)));
      }
    case BadTransactionSent(code, sender) =>
      saw' := saw.(badTransaction := true);
      forgotten' := forgotten + [sender];
      outcome' := outcome.(hubRejected := true, events := outcome.events + [NameOfBadTransaction],
                           executed := Some(false), errorCode := Some(code));
    case Relayed =>
      saw' := saw.(relayed := true);
      outcome' := outcome.(events := outcome.events + [NameOfRelayed]);
    case GasUsedByTransaction =>
      outcome' := outcome.(events := outcome.events + [NameOfGasUsed]);
    case _ =>
  }

  method ReadHubEvents(receipt: Option<Receipt>) returns (outcome: Outcome, forgotten: seq<Key>)
    ensures receipt.None? ==> outcome == NO_OUTCOME && forgotten == []
    ensures receipt.Some? ==> outcome == OutcomeOf(receipt.value.logs) && forgotten == Rejected(receipt.value.logs)
  {
    outcome, forgotten := NO_OUTCOME, [];
    if receipt.None? { return; }
    var logs := receipt.value.logs;
    var saw := NOTHING;
    assert logs[..0] == [];
    hide Told;
    NothingTold();
    for i := 0 to |logs|
      invariant Told(logs[..i], outcome, forgotten, saw)
    {
      OneMoreRead(logs, i);
      outcome, forgotten, saw := TellLog(logs[..i], logs[i], outcome, forgotten, saw);
    }
    assert logs[..|logs|] == logs;
    OutcomeTold(logs, outcome, forgotten, saw);
    if OnlyVerified(saw) {
      outcome := outcome.(executed := Some(false), output := Some(NoCodeCreated));
    }
    if outcome.executed.None? && (saw.transactionRelayed || saw.contractDeployed) {
      outcome := outcome.(executed := Some(true));
    }
  }

  lemma NothingTold()
    ensures Told([], NO_OUTCOME, [], NOTHING)
  {
  }

  /** What is left to decide once every log is read. */
  lemma OutcomeTold(logs: seq<HubLog>, o: Outcome, forgotten: seq<Key>, saw: Saw)
    requires Told(logs, o, forgotten, saw)
    ensures forgotten == Rejected(logs)
    ensures OnlyVerified(saw) ==> OutcomeOf(logs) == o.(executed := Some(false), output := Some(NoCodeCreated))
    ensures !OnlyVerified(saw) ==>
      OutcomeOf(logs) == if o.executed.None? && (saw.transactionRelayed || saw.contractDeployed) then o.(executed := Some(true)) else o
  {
  }

  // ---------------------------------------------------------------- GetMetaTxResult

  /** What the loop of GetMetaTxResult knows after reading `logs`. */
  ghost predicate Parsed(logs: seq<HubLog>, out: Result, forgotten: seq<Key>, saw: Saw) {
    && Seen(logs, saw)
    && out.mined && forgotten == Rejected(logs)
    && (out.success <==> FailureReason(logs).None?)
    && (out.executed <==> LastVerdict(logs) != Some(false))
    && out.errorCode == RefusalCode(logs)
    && out.revertReason == FailureReason(logs)
    && out.deployedAddress == Deployed(logs)
  }

  method ParseLog(ghost before: seq<HubLog>, log: HubLog, out: Result, forgotten: seq<Key>, saw: Saw)
    returns (out': Result, forgotten': seq<Key>, saw': Saw)
    requires Parsed(before, out, forgotten, saw)
    ensures Parsed(before + [log], out', forgotten', saw')
  {
    hide Deployed, RefusalCode, FailureReason, RevertReason, LastVerdict, Rejected, Seen;
    OneMore(before, log);
    SeenOneMore(before, log, saw);
    out', forgotten', saw' := out, forgotten, saw;
    match log
    case ContractDeployed(address) =>
      saw' := saw.(contractDeployed := true);
      out' := out.(deployedAddress := Some(address));
    case TransactionRelayed(executed, reason) =>
      saw' := saw.(transactionRelayed := true);
      out' := out.(executed := executed);
      if !executed {
        out' := out'.(success := false, revertReason := Some(Reverted(reason)));
      }
    case BadTransactionSent(code, sender) =>
      saw' := saw.(badTransaction := true);
      forgotten' := forgotten + [sender];
      out' := out.(success := false, executed := false, errorCode := Some(code), revertReason := Some(RefusedByHub(code)));
    case Relayed =>
      saw' := saw.(relayed := true);
    case _ =>
  }

  /** GetMetaTxResult, once the node has answered. */
  method GetMetaTxResult(receipt: Option<Receipt>) returns (out: Result, forgotten: seq<Key>)
    ensures receipt.None? ==> out == Result(false, true, true, None, None, None) && forgotten == []
    ensures receipt.Some? ==> out == ResultOf(receipt.value.logs) && forgotten == Rejected(receipt.value.logs)
  {
    out, forgotten := Result(receipt.Some?, true, true, None, None, None), [];
    if receipt.None? { return; }
    var logs := receipt.value.logs;
    var saw := NOTHING;
    assert logs[..0] == [];
    hide Parsed;
    NothingParsed();
    for i := 0 to |logs|
      invariant Parsed(logs[..i], out, forgotten, saw)
    {
      OneMoreRead(logs, i);
      out, forgotten, saw := ParseLog(logs[..i], logs[i], out, forgotten, saw);
    }
    assert logs[..|logs|] == logs;
    ResultParsed(logs, out, forgotten, saw);
    if OnlyVerified(saw) {
      out := out.(success := false, executed := false, revertReason := Some(NoCodeCreated));
    }
  }

  lemma NothingParsed()
    ensures Parsed([], Result(true, true, true, None, None, None), [], NOTHING)
  {
  }

  lemma ResultParsed(logs: seq<HubLog>, out: Result, forgotten: seq<Key>, saw: Saw)
    requires Parsed(logs, out, forgotten, saw)
    ensures forgotten == Rejected(logs)
    ensures ResultOf(logs) ==
      if OnlyVerified(saw) then out.(success := false, executed := false, revertReason := Some(NoCodeCreated)) else out
  {
  }

  // ---------------------------------------------------------------- GetTransactionReceipt

  /** What the loop of GetTransactionReceipt knows after reading `logs`: `receipt` is rewritten in place, `reverted` is
      the copy made at the last failing log. */
  ghost predicate Rewritten(logs: seq<HubLog>, original: Receipt, receipt: Receipt, reverted: Option<Shown>,
                            forgotten: seq<Key>, saw: Saw) {
    && Seen(logs, saw)
    && forgotten == Rejected(logs)
    && receipt.contractAddress == AddressIn(logs, original.contractAddress)
    && receipt.status == (if FailureReason(logs).Some? then 0 else original.status)
    && reverted == if FailureReason(logs).None? then None
                   else Some(Shown(0, AddressIn(UpToLast(logs, Failing), original.contractAddress), FailureReason(logs)))
  }

  lemma AddressOneMore(logs: seq<HubLog>, log: HubLog, original: string)
    ensures AddressIn(logs + [log], original) == if log.ContractDeployed? then log.address else AddressIn(logs, original)
    ensures UpToLast(logs + [log], Failing) ==
      if log.BadTransactionSent? || (log.TransactionRelayed? && !log.executed) then logs + [log] else UpToLast(logs, Failing)
  {
    DeployedOneMore(logs, log);
    LastOfOneMore(logs, log, Failing);
    hide Deployed, UpToLast, LastOf;
  }

  method RewriteLog(ghost before: seq<HubLog>, ghost original: Receipt, log: HubLog, receipt: Receipt, reverted: Option<Shown>,
                    forgotten: seq<Key>, saw: Saw)
    returns (receipt': Receipt, reverted': Option<Shown>, forgotten': seq<Key>, saw': Saw)
    requires Rewritten(before, original, receipt, reverted, forgotten, saw)
    ensures Rewritten(before + [log], original, receipt', reverted', forgotten', saw')
  {
    hide Deployed, FailureReason, Rejected, UpToLast, Seen, AddressIn, LastOf;
    OneMore(before, log);
    AddressOneMore(before, log, original.contractAddress);
    SeenOneMore(before, log, saw);
    receipt', reverted', forgotten', saw' := receipt, reverted, forgotten, saw;
    match log
    case ContractDeployed(address) =>
      saw' := saw.(contractDeployed := true);
      receipt' := receipt.(contractAddress := address);
    case TransactionRelayed(executed, reason) =>
      saw' := saw.(transactionRelayed := true);
      if !executed {
        receipt' := receipt.(status := 0);
        reverted' := Some(Shown(receipt'.status, receipt'.contractAddress, Some(Reverted(reason))));
      }
    case BadTransactionSent(code, sender) =>
      saw' := saw.(badTransaction := true);
      forgotten' := forgotten + [sender];
      receipt' := receipt.(status := 0);
      reverted' := Some(Shown(receipt'.status, receipt'.contractAddress, Some(RefusedByHub(code))));
    case Relayed =>
      saw' := saw.(relayed := true);
    case _ =>
  }

  /** GetTransactionReceipt, once the node has answered. */
  method GetTransactionReceipt(answer: Option<Receipt>) returns (shown: Option<Shown>, forgotten: seq<Key>)
    ensures answer.None? ==> shown.None? && forgotten == []
    ensures answer.Some? ==> shown == Some(ShownOf(answer.value)) && forgotten == Rejected(answer.value.logs)
  {
    forgotten := [];
    if answer.None? { return None, []; }
    var receipt := answer.value;
    var reverted: Option<Shown> := None;
    var logs := receipt.logs;
    var saw := NOTHING;
    assert logs[..0] == [];
    hide *;
    NothingRewritten(receipt);
    for i := 0 to |logs|
      invariant Rewritten(logs[..i], answer.value, receipt, reverted, forgotten, saw)
    {
      OneMoreRead(logs, i);
      receipt, reverted, forgotten, saw := RewriteLog(logs[..i], answer.value, logs[i], receipt, reverted, forgotten, saw);
    }
    assert logs[..|logs|] == logs;
    ReceiptRewritten(answer.value, receipt, reverted, forgotten, saw);
    if OnlyVerified(saw) {
      receipt := receipt.(status := 0);
      reverted := Some(Shown(receipt.status, receipt.contractAddress, Some(NoCodeCreated)));
    }
    shown := if reverted.Some? then reverted else Some(Shown(receipt.status, receipt.contractAddress, None));
  }

  lemma NothingRewritten(original: Receipt)
    ensures Rewritten([], original, original, None, [], NOTHING)
  {
  }

  lemma ReceiptRewritten(original: Receipt, receipt: Receipt, reverted: Option<Shown>, forgotten: seq<Key>, saw: Saw)
    requires Rewritten(original.logs, original, receipt, reverted, forgotten, saw)
    ensures forgotten == Rejected(original.logs)
    ensures Some(ShownOf(original)) ==
      if OnlyVerified(saw) then Some(Shown(0, receipt.contractAddress, Some(NoCodeCreated)))
      else if reverted.Some? then reverted
      else Some(Shown(receipt.status, receipt.contractAddress, None))
  {
  }

  // ---------------------------------------------------------------- what the answers mean, log by log

  /** A metatx is a success if and only if no call reverted and the hub did not refuse it, and, if the hub verified a
      deploy, a contract was deployed or a call made; the status shown is forced to 0 exactly otherwise. */
  lemma SuccessMeans(receipt: Receipt)
    ensures var logs := receipt.logs;
      var good := (forall log <- logs :: !(log.TransactionRelayed? && !log.executed) && !log.BadTransactionSent?)
                  && ((exists log <- logs :: log.ContractDeployed? || log.TransactionRelayed?) || forall log <- logs :: !log.Relayed?);
      && (ResultOf(logs).success <==> good)
      && ShownOf(receipt).status == (if good then receipt.status else 0)
      && (ShownOf(receipt).revertReason.None? <==> good)
  {
  }

  /** "No code created" is the reason given, by all three, if and only if the hub verified a deploy and then said nothing:
      no contract, no call and no refusal. */
  lemma SilenceMeans(receipt: Receipt)
    ensures var logs := receipt.logs;
      var silent := (exists log <- logs :: log.Relayed?)
                    && forall log <- logs :: !log.ContractDeployed? && !log.TransactionRelayed? && !log.BadTransactionSent?;
      && (ResultOf(logs).revertReason == Some(NoCodeCreated) <==> silent)
      && (ShownOf(receipt).revertReason == Some(NoCodeCreated) <==> silent)
      && (OutcomeOf(logs).output == Some(NoCodeCreated) <==> silent)
  {
    hide FailureReason, RevertReason, LastVerdict, Deployed, RefusalCode, UpToLast, Names, Failed;
    FailuresTellMore(receipt.logs);
  }

  lemma FailuresTellMore(logs: seq<HubLog>)
    ensures FailureReason(logs) != Some(NoCodeCreated) && RevertReason(logs) != Some(NoCodeCreated)
  {
  }

  lemma {:induction false} LastIs(logs: seq<HubLog>, i: nat, p: HubLog -> bool)
    requires i < |logs| && p(logs[i]) && forall j | i < j < |logs| :: !p(logs[j])
    ensures LastOf(logs, p) == Some(logs[i]) && UpToLast(logs, p) == logs[..i + 1]
  {
    var last := |logs| - 1;
    if i < last {
      LastIs(logs[..last], i, p);
      assert logs[..last][..i + 1] == logs[..i + 1];
    }
  }

  /** Whether it was executed is what the last call or refusal says. If there is none, it was if a contract was deployed,
      it was not if the hub only verified a deploy, and the settlement does not know if the hub said nothing of it. */
  lemma ExecutedMeans(logs: seq<HubLog>, i: nat)
    requires i < |logs| ==> logs[i].TransactionRelayed? || logs[i].BadTransactionSent?
    requires forall j | i < j < |logs| :: !logs[j].TransactionRelayed? && !logs[j].BadTransactionSent?
    requires i >= |logs| ==> forall log <- logs :: !log.TransactionRelayed? && !log.BadTransactionSent?
    ensures i < |logs| ==>
      && OutcomeOf(logs).executed == Some(logs[i].TransactionRelayed? && logs[i].executed)
      && ResultOf(logs).executed == (logs[i].TransactionRelayed? && logs[i].executed)
    ensures i >= |logs| ==>
      && OutcomeOf(logs).executed == (if exists log <- logs :: log.ContractDeployed? then Some(true)
                                      else if exists log <- logs :: log.Relayed? then Some(false) else None)
      && (ResultOf(logs).executed <==> (exists log <- logs :: log.ContractDeployed?) || forall log <- logs :: !log.Relayed?)
  {
    if i < |logs| {
      LastIs(logs, i, Judging);
      assert logs[i] in logs;
    }
  }

  /** The reason and the address of a receipt that fails are those of its last failing log: what the call returned or
      the code of the refusal, and the last contract deployed until then. */
  lemma FailureMeans(receipt: Receipt, i: nat)
    requires i < |receipt.logs|
    requires var log := receipt.logs[i]; (log.TransactionRelayed? && !log.executed) || log.BadTransactionSent?
    requires forall j | i < j < |receipt.logs| ::
      !(receipt.logs[j].TransactionRelayed? && !receipt.logs[j].executed) && !receipt.logs[j].BadTransactionSent?
    ensures var log := receipt.logs[i]; var reason := if log.TransactionRelayed? then Reverted(log.reason) else RefusedByHub(log.code);
      ShownOf(receipt).revertReason == Some(reason) && ResultOf(receipt.logs).revertReason == Some(reason)
    ensures forall d | 0 <= d <= i && receipt.logs[d].ContractDeployed? && (forall j | d < j <= i :: !receipt.logs[j].ContractDeployed?) ::
      ShownOf(receipt).contractAddress == receipt.logs[d].address
    ensures (forall d | 0 <= d <= i :: !receipt.logs[d].ContractDeployed?) ==> ShownOf(receipt).contractAddress == receipt.contractAddress
  {
    var logs := receipt.logs;
    LastIs(logs, i, Failing);
    assert logs[i] in logs;
    hide UpToLast;
    forall d | 0 <= d <= i && logs[d].ContractDeployed? && (forall j | d < j <= i :: !logs[j].ContractDeployed?)
      ensures ShownOf(receipt).contractAddress == logs[d].address
    {
      LastIs(logs[..i + 1], d, Deploying);
    }
  }

  /** The address, the code and, for a call, the reason that the results give are those of the last contract, the last
      refusal and the last call that reverted; the settlement is told of a refusal if there is one. */
  lemma LastOnesMean(logs: seq<HubLog>, i: nat)
    requires i < |logs|
    ensures logs[i].ContractDeployed? && (forall j | i < j < |logs| :: !logs[j].ContractDeployed?) ==>
      OutcomeOf(logs).deployedAddress == ResultOf(logs).deployedAddress == Some(logs[i].address)
    ensures logs[i].BadTransactionSent? && (forall j | i < j < |logs| :: !logs[j].BadTransactionSent?) ==>
      OutcomeOf(logs).errorCode == ResultOf(logs).errorCode == Some(logs[i].code) && OutcomeOf(logs).hubRejected
    ensures logs[i].TransactionRelayed? && !logs[i].executed
            && (forall j | i < j < |logs| :: !(logs[j].TransactionRelayed? && !logs[j].executed)) ==>
      OutcomeOf(logs).output == Some(Reverted(logs[i].reason))
  {
    assert logs[i] in logs;
    if logs[i].ContractDeployed? && (forall j | i < j < |logs| :: !logs[j].ContractDeployed?) { LastIs(logs, i, Deploying); }
    if logs[i].BadTransactionSent? && (forall j | i < j < |logs| :: !logs[j].BadTransactionSent?) { LastIs(logs, i, Refusal); }
    if logs[i].TransactionRelayed? && !logs[i].executed
       && (forall j | i < j < |logs| :: !(logs[j].TransactionRelayed? && !logs[j].executed)) { LastIs(logs, i, FailingRelay); }
  }

  /** And if there is none of them, they give none. */
  lemma NoneMeans(logs: seq<HubLog>)
    ensures (forall log <- logs :: !log.ContractDeployed?) ==> OutcomeOf(logs).deployedAddress == ResultOf(logs).deployedAddress == None
    ensures (forall log <- logs :: !log.BadTransactionSent?) ==>
      OutcomeOf(logs).errorCode == ResultOf(logs).errorCode == None && !OutcomeOf(logs).hubRejected
    ensures (forall log <- logs :: !(log.TransactionRelayed? && !log.executed) && !log.Relayed?) ==> OutcomeOf(logs).output == None
  {
  }

  /** The chains dropped while reading are those of the senders that the hub refused, and of nobody else. */
  lemma {:induction false} RejectedMeans(logs: seq<HubLog>)
    ensures forall k :: k in Rejected(logs) <==> exists log <- logs :: log.BadTransactionSent? && log.sender == k
  {
    if logs != [] {
      var last := |logs| - 1;
      RejectedMeans(logs[..last]);
      assert logs == logs[..last] + [logs[last]];
    }
  }

  // ---------------------------------------------------------------- the three tell the same story

  /** For every receipt: the status is forced to 0 exactly when the parsed result is not a success, which is exactly
      when some call reverted, the hub refused the metatx or a deploy failed in silence; both give the same reason,
      and both are shown a reason exactly then. */
  lemma StatusAndSuccessAgree(receipt: Receipt)
    ensures var shown := ShownOf(receipt); var result := ResultOf(receipt.logs);
      && (!result.success <==> Failed(receipt.logs))
      && (shown.status == if result.success then receipt.status else 0)
      && shown.revertReason == result.revertReason
      && (shown.revertReason.Some? <==> !result.success)
  {
  }

  /** Whenever the settlement knows whether the call was executed, the parsed result says the same; it does not know
      exactly when the hub said nothing of that metatx, and then the parsed result says it was. */
  lemma ExecutedAgrees(logs: seq<HubLog>)
    ensures var outcome := OutcomeOf(logs); var result := ResultOf(logs);
      && (outcome.executed.Some? ==> outcome.executed.value == result.executed)
      && (outcome.executed.None? ==> result.executed)
      && (outcome.executed.None? <==>
            forall log <- logs :: !log.Relayed? && !log.ContractDeployed? && !log.TransactionRelayed? && !log.BadTransactionSent?)
      && outcome.deployedAddress == result.deployedAddress
      && outcome.errorCode == result.errorCode
      && (outcome.hubRejected <==> exists log <- logs :: log.BadTransactionSent?)
  {
  }

  /** A metatx that was not executed is never a success. The converse fails exactly when a failing log is followed by
      a call that was executed: then the result is "executed" and yet not a success. */
  lemma SuccessVersusExecuted(logs: seq<HubLog>)
    ensures var result := ResultOf(logs);
      && (!result.executed ==> !result.success)
      && (result.executed != result.success <==>
            (exists log <- logs :: Failing(log)) && LastVerdict(logs) == Some(true))
  {
    if LastVerdict(logs) == Some(false) {
      assert Failing(LastOf(logs, Judging).value);
    }
  }

  /** The address the receipt shows is the one of the parsed result exactly when nothing failed, or no contract was
      deployed behind the last failing log, or the last one deployed there has the address known at that log. */
  lemma AddressesAgree(receipt: Receipt)
    ensures var shown := ShownOf(receipt); var result := ResultOf(receipt.logs);
      var until := UpToLast(receipt.logs, Failing);
      var behind := Deployed(receipt.logs[|until|..]);
      shown.contractAddress == (if result.deployedAddress.Some? then result.deployedAddress.value else receipt.contractAddress)
      <==> || (forall log <- receipt.logs :: !Failing(log))
           || behind.None? || behind.value == AddressIn(until, receipt.contractAddress)
  {
    var logs := receipt.logs;
    var until := UpToLast(logs, Failing);
    FailureFound(logs);
    DeployedSplit(logs, |until|);
    assert logs[..|until|] == until;
    hide Deployed, FailureReason, UpToLast, LastOf, Failed, SilentDeploy;
  }

  lemma FailureFound(logs: seq<HubLog>)
    ensures FailureReason(logs).None? <==> forall log <- logs :: !Failing(log)
  {
  }

  /** The last contract deployed is the last one of the second part, or else of the first. */
  lemma {:induction false} DeployedSplit(logs: seq<HubLog>, n: nat)
    requires n <= |logs|
    ensures Deployed(logs) == if Deployed(logs[n..]).Some? then Deployed(logs[n..]) else Deployed(logs[..n])
    decreases |logs|
  {
    if n == |logs| {
      assert logs[..n] == logs && logs[n..] == [];
    } else {
      var last := |logs| - 1;
      var before := logs[..last];
      DeployedSplit(before, n);
      SplitOneMore(logs, n);
      DeployedOneMore(before, logs[last]);
      DeployedOneMore(before[n..], logs[last]);
      hide Deployed;
    }
  }

  lemma SplitOneMore(logs: seq<HubLog>, n: nat)
    requires n < |logs|
    ensures var last := |logs| - 1;
      && logs[..last] + [logs[last]] == logs
      && logs[..last][n..] + [logs[last]] == logs[n..] && logs[..last][..n] == logs[..n]
  {
  }

  // ---------------------------------------------------------------- receipts on which they disagree

  /** A call that reverted, and then one that was executed: "executed", and not a success. */
  lemma ExecutedWithoutSuccess()
    ensures var result := ResultOf([TransactionRelayed(false, "x"), TransactionRelayed(true, "")]);
      result.executed && !result.success
  {
    var logs := [TransactionRelayed(false, "x"), TransactionRelayed(true, "")];
    assert logs[0] in logs && Failing(logs[0]);
  }

  /** A call that reverted, and then a contract deployed: the receipt does not show its address. */
  lemma AddressNotShown()
    ensures var receipt := Receipt(1, "", [TransactionRelayed(false, "x"), ContractDeployed("a")]);
      ResultOf(receipt.logs).deployedAddress == Some("a") && ShownOf(receipt).contractAddress == ""
  {
    var logs := [TransactionRelayed(false, "x"), ContractDeployed("a")];
    assert logs[..1] == [logs[0]] && logs[..1][..0] == [];
  }
}
