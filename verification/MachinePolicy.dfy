/** The machine-wide VPN and Chrome policy: a write-ahead journal, its recovery, and the hardened
    coordinator that runs a platform's steps inside it. Every journal write and every VPN or Chrome
    command takes one fate from a fault plan; a command that fails may leave any partial effect. */
module MachinePolicy {
  import opened Common
  import opened RunOutcome

  datatype Vpn = Connected | Disconnected | Unsettled

  datatype Machine = Machine(vpn: Vpn, chromeExcluded: bool)

  datatype Target = Target(vpnConnected: bool, chromeExcluded: bool)

  datatype TxStatus = PENDING | RESTORING | RESTORED | RESTORED_MANIFEST_PENDING | FAILED_RESTORE {
    predicate Settled() { RESTORED? || RESTORED_MANIFEST_PENDING? }
  }

  datatype SyncStatus = UNSYNCED | SYNCED | ORIGIN_BUSY | ORIGIN_MISSING | INVALID_ORIGIN

  /** One transaction document; `owner` is the workspace that began it. */
  datatype Transaction = Transaction(owner: nat, status: TxStatus, sync: SyncStatus, target: Target,
                                     transitions: seq<string>, attempts: nat)

  datatype Fate = Done | Raise(partial: Machine) | Crash(partial: Machine)

  datatype Status = Going | Raised(code: string) | Crashed

  /** The fate of the k-th operation from now. */
  function FateAt(plan: seq<Fate>, k: nat): Fate { if k < |plan| then plan[k] else Done }

  function Later(plan: seq<Fate>): seq<Fate> { if plan == [] then [] else plan[1..] }

  datatype Recovery = Nothing | AlreadyRestored | Recovered | Refused(code: string)

  function Wanted(t: Target): Machine {
    Machine(if t.vpnConnected then Connected else Disconnected, t.chromeExcluded)
  }

  /** The machine a step may run on. */
  ghost predicate OnRoute(step: StepName, m: Machine) {
    if step == VPN_SNAPSHOT then m.vpn == Connected && !m.chromeExcluded else m.vpn == Disconnected
  }

  ghost predicate Mutable(t: Transaction) {
    t.transitions != [] || t.attempts > 0
  }

  function WithTransition(t: Transaction, action: string): Transaction {
    t.(transitions := t.transitions + [action])
  }

  class Controller {
    var machine: Machine
    var transactions: map<nat, Transaction>
    var active: Option<nat>
    var plan: seq<Fate>
    var status: Status
    var nextId: nat
    ghost var baseline: Machine   // the machine after the last verified restore, or as first found

    /** A transaction is recorded as pending whenever the machine may differ from its last verified
        state; and an unsettled transaction the pointer does not name was never acted upon. */
    ghost predicate Safe()
      reads this
    {
      && (active.Some? ==> active.value in transactions)
      && (machine != baseline ==> active.Some? && !transactions[active.value].status.Settled())
      && (forall t :: t in transactions ==> t < nextId)
      && (forall t :: t in transactions && !transactions[t].status.Settled() && active != Some(t) ==>
        !Mutable(transactions[t]))
    }

    /** The machines the recorded transactions aim at. */
    ghost function Aims(): set<Machine>
      reads this
    {
      set t | t in transactions :: Wanted(transactions[t].target)
    }

    predicate Pending(t: nat)
      reads this
    {
      active == Some(t) && t in transactions && !transactions[t].status.Settled()
    }

    constructor (m: Machine)
      ensures Safe() && machine == m && baseline == m && transactions == map[] && active.None? && status.Going?
        && plan == []
    {
      machine, baseline, transactions, active := m, m, map[], None;
      plan, status, nextId := [], Going, 0;
    }

    // ------------------------------------------------------------ faults

    method NextFate() returns (fate: Fate)
      modifies this`plan
      ensures fate == FateAt(old(plan), 0) && plan == Later(old(plan))
    {
      fate := if plan == [] then Done else plan[0];
      plan := Later(plan);
    }

    /** One VPN or Chrome command. */
    method Command(after: Machine, code: string)
      modifies this`machine, this`plan, this`status
      ensures old(status).Going? ==> plan == Later(old(plan))
      ensures old(status).Going? ==> match FateAt(old(plan), 0)
        case Done => machine == after && status.Going?
        case Raise(partial) => machine == partial && status == Raised(code)
        case Crash(partial) => machine == partial && status.Crashed?
      ensures !old(status).Going? ==> machine == old(machine) && status == old(status) && plan == old(plan)
    {
      if !status.Going? { return; }
      var fate := NextFate();
      match fate
      case Done => machine := after;
      case Raise(partial) => machine, status := partial, Raised(code);
      case Crash(partial) => machine, status := partial, Crashed;
    }

    /** One atomic write of a transaction document. */
    method WriteTransaction(id: nat, t: Transaction)
      modifies this`transactions, this`plan, this`status
      ensures old(status).Going? && status.Going? ==> transactions == old(transactions)[id := t]
      ensures !(old(status).Going? && status.Going?) ==> transactions == old(transactions)
      ensures !old(status).Going? ==> status == old(status)
      ensures old(status).Going? && old(plan) == [] ==> status.Going? && plan == []
      ensures old(status).Going? ==> plan == Later(old(plan))
      ensures old(status).Going? ==> match FateAt(old(plan), 0)
        case Done => status.Going?
        case Raise(_) => status == Raised("os_error")
        case Crash(_) => status.Crashed?
    {
      if !status.Going? { return; }
      var fate := NextFate();
      match fate
      case Done => transactions := transactions[id := t];
      case Raise(_) => status := Raised("os_error");
      case Crash(_) => status := Crashed;
    }

    /** One atomic write of the active pointer. */
    method WriteActive(pointer: Option<nat>)
      modifies this`active, this`plan, this`status
      ensures old(status).Going? && status.Going? ==> active == pointer
      ensures !(old(status).Going? && status.Going?) ==> active == old(active)
      ensures !old(status).Going? ==> status == old(status)
      ensures old(status).Going? ==> match FateAt(old(plan), 0)
        case Done => status.Going?
        case Raise(_) => status == Raised("os_error")
        case Crash(_) => status.Crashed?
      ensures old(status).Going? && old(plan) == [] ==> status.Going? && plan == []
    {
      if !status.Going? { return; }
      var fate := NextFate();
      match fate
      case Done => active := pointer;
      case Raise(_) => status := Raised("os_error");
      case Crash(_) => status := Crashed;
    }

    // ------------------------------------------------------------ the journal

    /** `begin`: the document first, then the pointer, both before any command. A workspace is refused
        while another one's transaction is active. Nothing here looks at the status of the workspace's own
        active transaction: safety is kept when that one is settled, which recovery before it ensures. */
    method Begin(workspace: nat, target: Target) returns (id: Option<nat>)
      requires Safe() && status.Going?
      modifies this`transactions, this`active, this`plan, this`status, this`nextId
      ensures old(active).None? || old(transactions)[old(active).value].status.Settled() ==> Safe()
      ensures id.Some? <==> status.Going?
      ensures id.Some? ==> id.value !in old(transactions) && Pending(id.value)
                           && transactions[id.value].owner == workspace && transactions[id.value].target == target
      ensures id.None? ==> active == old(active)
      ensures old(plan) == [] && (old(active).Some? ==> old(transactions)[old(active).value].owner == workspace) ==>
                status.Going? && plan == []
      ensures forall t :: t in old(transactions) ==> t in transactions && transactions[t] == old(transactions)[t]
      ensures Aims() <= old(Aims()) + {Wanted(target)}
      ensures old(active).Some? && old(transactions)[old(active).value].owner != workspace ==>
        transactions == old(transactions) && id.None? && status == Raised("machine_policy_foreign_workspace")
    {
      id := None;
      if active.Some? && transactions[active.value].owner != workspace {
        status := Raised("machine_policy_foreign_workspace");
        return;
      }
      var number := nextId;
      assert number !in transactions;
      nextId := nextId + 1;
      WriteTransaction(number, Transaction(workspace, PENDING, UNSYNCED, target, [], 0));
      WriteActive(Some(number));
      if status.Going? { id := Some(number); }
    }

    /** `_update`: a document is only ever changed by the workspace that owns it. */
    method Update(workspace: nat, id: nat, t: Transaction)
      requires Safe() && id in transactions
      requires t.owner == transactions[id].owner
      requires machine != baseline && t.status.Settled() ==> active != Some(id)
      requires active == Some(id) || t.status.Settled()
      modifies this`transactions, this`plan, this`status
      ensures Safe()
      ensures old(status).Going? && status.Going? ==>
        transactions == old(transactions)[id := t] && old(transactions)[id].owner == workspace
      ensures !(old(status).Going? && status.Going?) ==> transactions == old(transactions)
      ensures !old(status).Going? ==> status == old(status)
      ensures old(status).Going? && old(plan) == [] && old(transactions)[id].owner == workspace ==>
        status.Going? && plan == []
      ensures old(status).Going? && old(transactions)[id].owner == workspace ==> plan == Later(old(plan))
      ensures old(status).Going? && old(transactions)[id].owner == workspace ==> match FateAt(old(plan), 0)
        case Done => status.Going?
        case Raise(_) => status == Raised("os_error")
        case Crash(_) => status.Crashed?
      ensures old(status).Going? && old(transactions)[id].owner != workspace ==>
        status == Raised("machine_policy_foreign_workspace") && plan == old(plan)
    {
      if !status.Going? { return; }
      if transactions[id].owner != workspace {
        status := Raised("machine_policy_foreign_workspace");
        return;
      }
      WriteTransaction(id, t);
    }

    method RecordTransition(workspace: nat, id: nat, action: string)
      requires Safe() && Pending(id)
      modifies this`transactions, this`plan, this`status
      ensures Safe() && Pending(id) && transactions[id].owner == old(transactions)[id].owner
      ensures transactions.Keys == old(transactions).Keys
      ensures forall t :: t in transactions && t != id ==> transactions[t] == old(transactions)[t]
      ensures !old(status).Going? ==> status == old(status)
      ensures old(status).Going? && old(transactions)[id].owner == workspace ==>
        plan == Later(old(plan)) && (FateAt(old(plan), 0).Done? ==> status.Going?)
      ensures transactions[id] == if old(status).Going? && status.Going?
        then WithTransition(old(transactions)[id], action) else old(transactions)[id]
      ensures old(status).Going? && old(plan) == [] && old(transactions)[id].owner == workspace ==>
        status.Going? && plan == []
    {
      Update(workspace, id, transactions[id].(transitions := transactions[id].transitions + [action]));
    }

    /** `clear_active`: only the pointer's own, settled transaction may be cleared. */
    method ClearActive(workspace: nat, id: nat)
      requires Safe() && id in transactions && (active == Some(id) ==> transactions[id].status.Settled())
      modifies this`active, this`plan, this`status
      ensures Safe()
      ensures old(status).Going? && status.Going? && old(active) == Some(id) ==> active.None?
      ensures active == old(active) || active.None?
      ensures !old(status).Going? ==> status == old(status) && active == old(active)
      ensures old(active) != Some(id) ==> active == old(active)
      ensures old(status).Going? && transactions[id].owner != workspace ==>
        status == Raised("machine_policy_foreign_workspace") && active == old(active) && plan == old(plan)
      ensures old(status).Going? && old(plan) == [] && transactions[id].owner == workspace ==>
        status.Going? && plan == []
    {
      if !status.Going? { return; }
      if transactions[id].owner != workspace {
        status := Raised("machine_policy_foreign_workspace");
        return;
      }
      if active.Some? && active.value != id { return; }
      WriteActive(None);
    }

    // ------------------------------------------------------------ commands under a transaction

    method ApplyVpnRouteForSnapshot(workspace: nat, id: nat)
      requires Safe() && Pending(id) && status.Going?
      modifies this`machine, this`transactions, this`plan, this`status
      ensures Safe() && Pending(id) && transactions[id].owner == old(transactions)[id].owner
      ensures transactions.Keys == old(transactions).Keys
      ensures forall t :: t in transactions && t != id ==> transactions[t] == old(transactions)[t]
      ensures transactions[id].target == old(transactions)[id].target
      ensures status.Going? ==> machine.vpn == Connected && !machine.chromeExcluded
      ensures status.Going? ==>
        transactions[id] ==
        WithTransition(WithTransition(old(transactions)[id], "chrome_on_vpn_route"), "connect_relay")
      // a failing command names itself, and the next one is not given
      ensures FateAt(old(plan), 0).Raise? ==>
        status == Raised("split_tunnel_failed") && machine == FateAt(old(plan), 0).partial
        && transactions == old(transactions)
      ensures FateAt(old(plan), 0).Done? && FateAt(old(plan), 1).Done? && FateAt(old(plan), 2).Raise?
              && old(transactions)[id].owner == workspace ==>
                status == Raised("vpn_transition_failed")
                && transactions[id] == WithTransition(old(transactions)[id], "chrome_on_vpn_route")
      ensures old(plan) == [] && old(transactions)[id].owner == workspace ==> status.Going? && plan == []
    {
      Command(machine.(chromeExcluded := false), "split_tunnel_failed");
      RecordTransition(workspace, id, "chrome_on_vpn_route");
      Command(machine.(vpn := Connected), "vpn_transition_failed");
      RecordTransition(workspace, id, "connect_relay");
    }

    method DisconnectForLocal(workspace: nat, id: nat)
      requires Safe() && Pending(id) && status.Going?
      modifies this`machine, this`transactions, this`plan, this`status
      ensures Safe() && Pending(id) && transactions[id].owner == old(transactions)[id].owner
      ensures transactions.Keys == old(transactions).Keys
      ensures forall t :: t in transactions && t != id ==> transactions[t] == old(transactions)[t]
      ensures transactions[id].target == old(transactions)[id].target
      ensures status.Going? ==> machine.vpn == Disconnected
      ensures status.Going? ==> transactions[id] == WithTransition(old(transactions)[id], "disconnect")
      ensures FateAt(old(plan), 0).Raise? ==>
        status == Raised("vpn_transition_failed") && machine == FateAt(old(plan), 0).partial
        && transactions == old(transactions)
      ensures old(plan) == [] && old(transactions)[id].owner == workspace ==> status.Going? && plan == []
    {
      Command(machine.(vpn := Disconnected), "vpn_transition_failed");
      RecordTransition(workspace, id, "disconnect");
    }

    /** One of the two independent halves of `restore`: an ordinary failure is only noted. */
    method Attempt(after: Machine) returns (ok: bool)
      modifies this`machine, this`plan, this`status
      ensures old(status).Going? ==> plan == Later(old(plan))
      ensures old(status).Going? ==> match FateAt(old(plan), 0)
        case Done => machine == after && status.Going? && ok
        case Raise(partial) => machine == partial && status.Going? && !ok
        case Crash(partial) => machine == partial && status.Crashed? && !ok
      ensures !old(status).Going? ==> status == old(status) && machine == old(machine) && !ok
    {
      var entered := status.Going?;
      Command(after, "");
      ok := status.Going?;
      if entered && status.Raised? { status := Going; }
    }

    /** The two halves, each tried whatever became of the other. */
    method RestoreHalves(target: Target) returns (vpnOk: bool, chromeOk: bool)
      requires status.Going?
      modifies this`machine, this`plan, this`status
      ensures !status.Raised?
      ensures status.Going? ==> plan == if |old(plan)| <= 2 then [] else old(plan)[2..]
      ensures status.Going? ==> !FateAt(old(plan), 0).Crash? && !FateAt(old(plan), 1).Crash?
      ensures status.Going? ==> (vpnOk <==> FateAt(old(plan), 0).Done?) && (chromeOk <==> FateAt(old(plan), 1).Done?)
      ensures status.Going? && chromeOk ==> machine.chromeExcluded == target.chromeExcluded
      ensures status.Going? && vpnOk && chromeOk ==> machine == Wanted(target)
      ensures old(plan) == [] ==> status.Going?
    {
      vpnOk := Attempt(machine.(vpn := if target.vpnConnected then Connected else Disconnected));
      chromeOk := Attempt(machine.(chromeExcluded := target.chromeExcluded));
    }

    /** `restore`: both halves are tried; the result is ok only when both succeeded and the document
        says so. */
    method Restore(workspace: nat, id: nat, target: Target) returns (ok: bool, code: string)
      requires Safe() && Pending(id) && status.Going?
      modifies this`machine, this`transactions, this`plan, this`status, this`baseline
      ensures Safe() && active == Some(id) && id in transactions
        && transactions[id].owner == old(transactions)[id].owner
      ensures transactions.Keys == old(transactions).Keys
      ensures forall t :: t in transactions && t != id ==> transactions[t] == old(transactions)[t]
      ensures ok ==>
        status.Going? && machine == Wanted(target) && baseline == machine && transactions[id].status.RESTORED?
      ensures baseline == old(baseline) || baseline == machine == Wanted(target)
      ensures old(transactions)[id].owner != workspace ==>
        status == Raised("machine_policy_foreign_workspace") && machine == old(machine) && !ok && code == ""
      ensures old(transactions)[id].owner == workspace ==> !status.Raised?
      ensures !ok ==> !transactions[id].status.Settled()
      // an unrecorded result leaves the document as it was; a recorded one counts the attempt
      ensures transactions[id] == old(transactions)[id]
              || transactions[id] == old(transactions)[id].(
                   status := if ok then RESTORED else FAILED_RESTORE,
                   attempts := old(transactions)[id].attempts + 1)
      ensures old(plan) == [] && old(transactions)[id].owner == workspace ==> ok && plan == []
      // the halves are independent, and the first thing that failed names the failure
      ensures status.Going? ==>
        (ok <==> FateAt(old(plan), 0).Done? && FateAt(old(plan), 1).Done? && FateAt(old(plan), 2).Done?)
      ensures status.Going? && !ok ==> code != ""
      ensures status.Going? && FateAt(old(plan), 1).Done? ==> machine.chromeExcluded == target.chromeExcluded
      ensures status.Going? ==>
        code == if FateAt(old(plan), 2).Raise? then "restoration_persist_failed"
                else if FateAt(old(plan), 0).Raise? then "vpn_transition_failed"
                else if FateAt(old(plan), 1).Raise? then "split_tunnel_failed"
                else ""
    {
      ok, code := false, "";
      if transactions[id].owner != workspace {
        status := Raised("machine_policy_foreign_workspace");
        return;
      }
      var vpnOk, chromeOk := RestoreHalves(target);
      if !status.Going? { return; }
      ok := vpnOk && chromeOk;
      code := if !vpnOk then "vpn_transition_failed" else if !chromeOk then "split_tunnel_failed" else "";
      if ok { baseline := machine; }
      Update(workspace, id,
        transactions[id].(
          status := if ok then RESTORED else FAILED_RESTORE, attempts := transactions[id].attempts + 1));
      if !status.Going? {
        ok, code := false, "restoration_persist_failed";   // an unrecorded result is not a success
        if status.Raised? { status := Going; }
      }
    }

    /** After a verified restore: note how mirroring to the origin went, then clear the pointer. */
    method Settle(workspace: nat, id: nat, mirror: SyncStatus)
      requires Safe() && status.Going? && active == Some(id) && machine == baseline
      requires transactions[id].status.RESTORED? && transactions[id].owner == workspace
      modifies this`transactions, this`active, this`plan, this`status
      ensures Safe() && (status.Going? ==> active.None?)
      ensures transactions.Keys == old(transactions).Keys && transactions[id].target == old(transactions)[id].target
      ensures status.Going? ==>
        transactions[id] == old(transactions)[id].(
          sync := mirror,
          status := if mirror == SYNCED then RESTORED else RESTORED_MANIFEST_PENDING,
          attempts := old(transactions)[id].attempts + if mirror == SYNCED then 0 else 1)
      ensures forall t :: t in transactions && t != id ==> transactions[t] == old(transactions)[t]
      ensures old(plan) == [] ==> status.Going? && plan == []
    {
      Update(workspace, id, transactions[id].(sync := mirror));
      if mirror != SYNCED {
        Update(workspace, id,
          transactions[id].(status := RESTORED_MANIFEST_PENDING, attempts := transactions[id].attempts + 1));
      }
      ClearActive(workspace, id);
    }

    /** `recover_pending`: repair what a crashed run left, or refuse. A settled transaction is cleared
        without touching the machine. */
    method RecoverPending(workspace: nat, mirror: SyncStatus) returns (result: Recovery)
      requires Safe() && status.Going?
      modifies this`machine, this`transactions, this`active, this`plan, this`status, this`baseline
      ensures Safe()
      ensures old(active).None? ==> result.Nothing? && machine == old(machine) && active.None? && status.Going?
      ensures old(active).Some? && old(transactions)[old(active).value].status.Settled() ==>
        machine == old(machine) && baseline == old(baseline)
      ensures status.Going? && !result.Refused? ==> active.None? && machine == baseline
      ensures baseline == old(baseline)
              || (old(active).Some? && !old(transactions)[old(active).value].status.Settled()
                  && baseline == machine == Wanted(old(transactions)[old(active).value].target))
      ensures transactions.Keys == old(transactions).Keys
      ensures forall t :: t in transactions ==> transactions[t].target == old(transactions)[t].target
      ensures status.Going? && result.Recovered? ==>
                old(active).Some? && machine == Wanted(old(transactions)[old(active).value].target)
      ensures status.Going? && old(active).Some? && !old(transactions)[old(active).value].status.Settled() ==>
        result.Recovered? || result.Refused?
      ensures old(active).Some? && old(transactions)[old(active).value].owner != workspace && status.Going? ==>
                result == Refused("machine_policy_foreign_workspace") && machine == old(machine)
      ensures forall t :: t in old(transactions) ==>
        t in transactions && (old(active) != Some(t) ==> transactions[t] == old(transactions)[t])
      ensures result.Refused? ==> old(active).Some? && active == old(active)
      ensures result.Refused? ==>
        result.code == if old(transactions)[old(active).value].owner != workspace
                          then "machine_policy_foreign_workspace" else "machine_policy_recovery_required"
      ensures old(plan) == [] && (old(active).Some? ==> old(transactions)[old(active).value].owner == workspace) ==>
                status.Going? && plan == [] && !result.Refused?
    {
      if active.None? { return Nothing; }
      var id := active.value;
      var document := transactions[id];
      if document.owner != workspace { return Refused("machine_policy_foreign_workspace"); }
      if document.status.Settled() {
        ClearActive(workspace, id);
        return AlreadyRestored;
      }
      var ok, code := Restore(workspace, id, document.target);
      if !ok { return Refused("machine_policy_recovery_required"); }
      Settle(workspace, id, mirror);
      return Recovered;
    }
  }
}
