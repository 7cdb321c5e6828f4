/**
  Capability negotiation for Device::attach and Device::detach. Both try the
  wrapper interfaces the driver exposes in a fixed priority order and stop at
  the first call that succeeds; attach prefers the single-target IWrapper,
  detach prefers IMultipleWrapper. Whether each call succeeds is decided by
  the driver, so it is given as `succeeds`.
 */
module Wrapping {
  import opened Drivers

  /** The wrapper calls the device layer can make on its driver. */
  datatype WrapperCall =
    | WrapperAttach      // IWrapper::attach(drivers[0])
    | MultiAttachAll     // IMultipleWrapper::attachAll(drivers)
    | MultiDetachAll     // IMultipleWrapper::detachAll()
    | WrapperDetach      // IWrapper::detach()

  /** The calls made, in order, and the boolean the action returns. */
  datatype ActionOutcome = ActionOutcome(calls: seq<WrapperCall>, ok: bool)

  /** Reference policy: try `candidates` in order and stop at the first call
      that succeeds; fail when none does (or there is none). */
  function TryInOrder(candidates: seq<WrapperCall>, succeeds: WrapperCall -> bool): (r: ActionOutcome)
    ensures |r.calls| <= |candidates| && r.calls == candidates[..|r.calls|]
    ensures r.ok <==> exists i | 0 <= i < |candidates| :: succeeds(candidates[i])
    ensures forall i | 0 <= i < |r.calls| - 1 :: !succeeds(r.calls[i])
    ensures r.ok ==> r.calls != [] && succeeds(r.calls[|r.calls| - 1])
    ensures !r.ok ==> r.calls == candidates
  {
    if candidates == [] then ActionOutcome([], false)
    else if succeeds(candidates[0]) then ActionOutcome([candidates[0]], true)
    else
      var rest := TryInOrder(candidates[1..], succeeds);
      assert forall i | 1 <= i < |candidates| :: candidates[i] == candidates[1..][i - 1];
      ActionOutcome([candidates[0]] + rest.calls, rest.ok)
  }

  /** The order attach tries its capabilities in: IWrapper only when there is
      exactly one target, then IMultipleWrapper on the whole list. */
  function AttachPriority(caps: set<Capability>, targets: nat): seq<WrapperCall>
  {
    (if targets == 1 && Wrapper in caps then [WrapperAttach] else [])
    + (if MultipleWrapper in caps then [MultiAttachAll] else [])
  }

  /** The order detach tries its capabilities in: IMultipleWrapper first,
      then IWrapper. */
  function DetachPriority(caps: set<Capability>): seq<WrapperCall>
  {
    (if MultipleWrapper in caps then [MultiDetachAll] else [])
    + (if Wrapper in caps then [WrapperDetach] else [])
  }

  /** Device::attach on a driver exposing `caps`, with `targets` drivers to
      attach. Branches as the source does; the contract ties it to the
      priority policy and says when it succeeds. */
  function Attach(caps: set<Capability>, targets: nat, succeeds: WrapperCall -> bool): (r: ActionOutcome)
    ensures r == TryInOrder(AttachPriority(caps, targets), succeeds)
    ensures r.ok <==>
      || (targets == 1 && Wrapper in caps && succeeds(WrapperAttach))
      || (MultipleWrapper in caps && succeeds(MultiAttachAll))
    ensures WrapperAttach in r.calls <==> targets == 1 && Wrapper in caps
    ensures MultiAttachAll in r.calls
        <==> MultipleWrapper in caps && !(targets == 1 && Wrapper in caps && succeeds(WrapperAttach))
  {
    var single := targets == 1 && Wrapper in caps;
    if single && succeeds(WrapperAttach) then ActionOutcome([WrapperAttach], true)
    else if single && MultipleWrapper !in caps then ActionOutcome([WrapperAttach], false)
    else
      var tried := if single then [WrapperAttach] else [];
      if MultipleWrapper !in caps then ActionOutcome(tried, false)
      else ActionOutcome(tried + [MultiAttachAll], succeeds(MultiAttachAll))
  }

  /** Device::detach on a driver exposing `caps`. Branches as the source does;
      the contract ties it to the priority policy and says when it succeeds. */
  function Detach(caps: set<Capability>, succeeds: WrapperCall -> bool): (r: ActionOutcome)
    ensures r == TryInOrder(DetachPriority(caps), succeeds)
    ensures r.ok <==>
      || (MultipleWrapper in caps && succeeds(MultiDetachAll))
      || (Wrapper in caps && succeeds(WrapperDetach))
    ensures MultiDetachAll in r.calls <==> MultipleWrapper in caps
    ensures WrapperDetach in r.calls
        <==> Wrapper in caps && !(MultipleWrapper in caps && succeeds(MultiDetachAll))
  {
    var wrapper := Wrapper in caps;
    var multiple := MultipleWrapper in caps;
    if !wrapper && !multiple then ActionOutcome([], false)
    else if multiple && succeeds(MultiDetachAll) then ActionOutcome([MultiDetachAll], true)
    else if multiple && !wrapper then ActionOutcome([MultiDetachAll], false)
    else
      var tried := if multiple then [MultiDetachAll] else [];
      ActionOutcome(tried + [WrapperDetach], succeeds(WrapperDetach))
  }

  /** The asymmetry between the two actions: on a driver exposing both
      interfaces, with one target, attach tries IWrapper first while detach
      tries IMultipleWrapper first. */
  lemma AttachDetachPriorityAsymmetry(caps: set<Capability>, succeeds: WrapperCall -> bool)
    requires Wrapper in caps && MultipleWrapper in caps
    ensures Attach(caps, 1, succeeds).calls[0] == WrapperAttach
    ensures Detach(caps, succeeds).calls[0] == MultiDetachAll
  {
  }
}
