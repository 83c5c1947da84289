/** encoding/channel_status.go and the info objects of transaction/: what channel cells and virtual channel cells
    say on chain, and how the client updates it. */
module Statuses {
  import opened Wrappers
  import opened Cells
  import opened ChannelStates

  /** A participant on chain: its public key and the hashes of two scripts. */
  datatype Participant = Participant(pubKey: nat, payment: Script, unlock: Script)

  datatype ParentData = ParentData(pctsHash: Hash, idxMap: (nat, nat))

  datatype ChannelStatus = ChannelStatus(state: PackedState, funded: bool, disputed: bool, vcDisputed: bool,
                                         vctsHash: Hash)

  datatype VirtualChannelStatus =
    VirtualChannelStatus(vcState: PackedState, parents: seq<ParentData>, firstForceClose: bool, owner: Participant)

  function ToFundedChannelStatus(s: ChannelStatus): ChannelStatus {
    s.(funded := true)
  }

  /** What a dispute with state p makes of a status. */
  function Disputed(s: ChannelStatus, p: PackedState): ChannelStatus {
    s.(state := p, disputed := true)
  }

  function VcDisputed(s: ChannelStatus, p: PackedState, vcts: Script): ChannelStatus {
    s.(state := p, disputed := true, vcDisputed := true, vctsHash := vcts)
  }

  /** What progress to state p, and the first force close, make of a virtual channel's status. */
  function Progressed(s: VirtualChannelStatus, p: PackedState): VirtualChannelStatus {
    s.(vcState := p)
  }

  function ForceClosedOnce(s: VirtualChannelStatus): VirtualChannelStatus {
    s.(firstForceClose := true)
  }

  /** A channel in CKBytes alone to which party 1 contributes nothing is funded once it is opened. */
  predicate InitialFundedStatus(s: State)
    requires WellFormed(s)
  {
    |s.assets| == 1 && SameAsset(s.assets[0], CKBytes) && s.balances[0].bal1 == 0
  }

  function MkInitialChannelStatus(s: State): Result<ChannelStatus, PackError>
    requires WellFormed(s)
  {
    match PackChannelState(s)
    case Err(e) => Err(e)
    case Ok(p) => Ok(ChannelStatus(p, InitialFundedStatus(s), false, false, ZERO_HASH))
  }

  class DisputeInfo {
    const newState: State
    var status: ChannelStatus

    constructor (status: ChannelStatus, newState: State)
      ensures this.status == status && this.newState == newState
    {
      this.status, this.newState := status, newState;
    }

    method Update() returns (error: Option<PackError>)
      requires WellFormed(newState)
      modifies this
      ensures error == None <==> PackChannelState(newState).Ok?
      ensures error.Some? ==> status == old(status)
      ensures error == None ==>
                && status.state == PackChannelState(newState).value && status.disputed
                && status.funded == old(status).funded && status.vcDisputed == old(status).vcDisputed
                && status.vctsHash == old(status).vctsHash
    {
      var packed := PackChannelState(newState);
      if packed.Err? {
        return Some(packed.error);
      }
      status := status.(state := packed.value, disputed := true);
      error := None;
    }
  }

  class VcDisputeInfo {
    const vcState: State
    const parentState: State
    const parents: seq<ParentData>
    const owner: Participant
    var lcStatus: ChannelStatus
    var vcStatus: Option<VirtualChannelStatus>
    var vcts: Option<Script>

    constructor (lcStatus: ChannelStatus, vcStatus: Option<VirtualChannelStatus>, vcState: State, parentState: State,
                 vcts: Option<Script>, parents: seq<ParentData>, owner: Participant)
      ensures this.lcStatus == lcStatus && this.vcStatus == vcStatus && this.vcts == vcts
      ensures this.vcState == vcState && this.parentState == parentState && this.parents == parents
              && this.owner == owner
    {
      this.lcStatus, this.vcStatus, this.vcts := lcStatus, vcStatus, vcts;
      this.vcState, this.parentState, this.parents, this.owner := vcState, parentState, parents, owner;
    }

    /** The status of the first virtual channel cell; it remembers who pays its rent. */
    method MkInitialVirtualChannelStatus(vctsHash: Script) returns (r: Result<VirtualChannelStatus, PackError>)
      requires WellFormed(vcState)
      modifies this`vcts
      ensures vcts == Some(vctsHash)
      ensures r.Ok? <==> PackChannelState(vcState).Ok?
      ensures r.Ok? ==> r.value == VirtualChannelStatus(PackChannelState(vcState).value, parents, false, owner)
    {
      vcts := Some(vctsHash);
      var packed := PackChannelState(vcState);
      if packed.Err? {
        return Err(packed.error);
      }
      r := Ok(VirtualChannelStatus(packed.value, parents, false, owner));
    }

    method Update(vctsHash: Script) returns (error: Option<PackError>)
      requires WellFormed(parentState)
      modifies this`lcStatus
      ensures error == None <==> PackChannelState(parentState).Ok?
      ensures error.Some? ==> lcStatus == old(lcStatus)
      ensures error == None ==>
                lcStatus == ChannelStatus(PackChannelState(parentState).value, old(lcStatus).funded, true, true,
                                          vctsHash)
    {
      var packed := PackChannelState(parentState);
      if packed.Err? {
        return Some(packed.error);
      }
      lcStatus := lcStatus.(state := packed.value, disputed := true, vcDisputed := true, vctsHash := vctsHash);
      error := None;
    }

    /** Progress replaces the virtual channel's state and nothing else: parents, owner and the force close flag stay. */
    method UpdateVCStatus() returns (error: Option<PackError>)
      requires WellFormed(vcState) && vcStatus.Some?
      modifies this`vcStatus
      ensures error == None <==> PackChannelState(vcState).Ok?
      ensures error.Some? ==> vcStatus == old(vcStatus)
      ensures error == None ==> vcStatus.Some? && vcStatus.value.vcState == PackChannelState(vcState).value
      ensures error == None ==>
                && vcStatus.value.parents == old(vcStatus).value.parents
                && vcStatus.value.owner == old(vcStatus).value.owner
                && vcStatus.value.firstForceClose == old(vcStatus).value.firstForceClose
    {
      var packed := PackChannelState(vcState);
      if packed.Err? {
        return Some(packed.error);
      }
      vcStatus := Some(vcStatus.value.(vcState := packed.value));
      error := None;
    }
  }

  class ForceCloseWithVCInfo {
    var firstForceClose: bool
    var vcStatus: VirtualChannelStatus

    constructor (firstForceClose: bool, vcStatus: VirtualChannelStatus)
      ensures this.firstForceClose == firstForceClose && this.vcStatus == vcStatus
    {
      this.firstForceClose, this.vcStatus := firstForceClose, vcStatus;
    }

    method UpdateFirstForceClose()
      modifies this
      ensures firstForceClose && vcStatus.firstForceClose
      ensures vcStatus.vcState == old(vcStatus).vcState && vcStatus.parents == old(vcStatus).parents
      ensures vcStatus.owner == old(vcStatus).owner
    {
      firstForceClose := true;
      vcStatus := vcStatus.(firstForceClose := true);
    }
  }
}
