/**
 Setting up a tunnel between an output and an input port, and overriding which
 end supplies the buffers.
 */
module TunnelSetup {
  import opened Basics

  datatype Dir = Input | Output
  datatype Domain = Audio | Video | Image | Other
  datatype Supply = Unspecified | FromInput | FromOutput

  /** One port; the three flags are the bits of nTunnelFlags. */
  class Port {
    const dir: Dir
    var domain: Domain
    var noEncoding: bool           // the encoding of the domain is its Max value
    var bufferCountMin: nat
    var enabled: bool
    var established: bool
    var supplier: bool
    var proprietary: bool
    var tunneledComponent: Component?
    var tunneledPort: nat
    var bufferSupplier: Supply
    var numTunnelBuffer: nat

    constructor (dir: Dir, domain: Domain, bufferCountMin: nat)
      ensures this.dir == dir && this.domain == domain && this.bufferCountMin == bufferCountMin
      ensures Untunneled() && bufferSupplier == Unspecified && !noEncoding && enabled
    {
      this.dir, this.domain, this.bufferCountMin := dir, domain, bufferCountMin;
      noEncoding, enabled, numTunnelBuffer := false, true, 0;
      established, supplier, proprietary, tunneledComponent, tunneledPort := false, false, false, null, 0;
      bufferSupplier := Unspecified;
    }

    ghost predicate Untunneled() reads this { !established && !supplier && tunneledComponent == null }

    /** Untunnelled, and with nothing left of an earlier negotiation. */
    ghost predicate Cleared() reads this { Untunneled() && !proprietary && tunneledPort == 0 && bufferSupplier == Unspecified }

    /** No flag is set; what was negotiated may still be remembered. */
    ghost predicate Loose() reads this { !established && !supplier && !proprietary }

    ghost predicate LinkedTo(c: Component, n: nat)
      reads this
    {
      established && tunneledComponent == c && tunneledPort == n
    }

    /** The definition of the other port is one this port can be tunnelled to. */
    predicate Compatible(c: Component, n: nat)
      reads this, c, c.ports
    {
      && n < |c.ports|
      && c.ports[n].domain == domain
      && !(domain != Image && c.ports[n].noEncoding)
    }

    method Cancel()
      modifies this
      ensures Cleared()
      ensures tunneledComponent == null && tunneledPort == 0 && !established && !supplier && !proprietary && bufferSupplier == Unspecified
      ensures unchanged(`domain, `noEncoding, `bufferCountMin, `enabled, `numTunnelBuffer)
    {
      tunneledComponent, tunneledPort := null, 0;
      established, supplier, proprietary := false, false, false;
      bufferSupplier := Unspecified;
    }

    /** The input end's part of the negotiation. */
    method Negotiate(other: Component, m: nat, setup: Setup)
      modifies this, setup
      ensures LinkedTo(other, m) && supplier == InputTakes(old(setup.readOnly), old(setup.supplier))
      ensures setup.supplier == if old(InputTakes(setup.readOnly, setup.supplier)) then FromInput else old(setup.supplier)
      ensures bufferSupplier == Told(old(setup.readOnly), old(setup.supplier), old(bufferSupplier))
      ensures unchanged(`domain, `noEncoding, `bufferCountMin, `enabled, `numTunnelBuffer, `proprietary)
    {
      tunneledComponent, tunneledPort := other, m;
      supplier := false;
      if setup.readOnly || setup.supplier == FromInput || setup.supplier == Unspecified {
        setup.supplier := FromInput;
        supplier := true;
        bufferSupplier := FromInput;
      }
      established := true;
    }
  }

  /** The input end makes itself the supplier. */
  predicate InputTakes(readOnly: bool, proposed: Supply) { readOnly || proposed != FromOutput }

  /** What the input end tells the output end; without a decision it is what the port remembers. */
  function Told(readOnly: bool, proposed: Supply, remembered: Supply): Supply {
    if InputTakes(readOnly, proposed) then FromInput else remembered
  }

  /** What the two ends tell each other. */
  class Setup {
    var readOnly: bool
    var supplier: Supply

    constructor (readOnly: bool, supplier: Supply)
      ensures this.readOnly == readOnly && this.supplier == supplier
    {
      this.readOnly, this.supplier := readOnly, supplier;
    }
  }

  class Component {
    const ports: seq<Port>
    var state: OmxState

    constructor (ports: seq<Port>)
      ensures this.ports == ports && state == Loaded
    {
      this.ports, state := ports, Loaded;
    }

    /** What SetParameter says to a buffer supplier change on port n before it looks at the change. */
    function Guard(n: nat): OmxError
      reads this, ports
    {
      if n >= |ports| then ErrorBadPortIndex
      else if state != Loaded && state != WaitForResources && ports[n].enabled then ErrorIncorrectStateOperation
      else ErrorNone
    }

    /** An input port's tunnel leads to an output port. */
    ghost predicate LeadsToOutput(n: nat)
      reads this, ports
    {
      n < |ports| && ports[n].dir == Input && ports[n].established ==>
        && ports[n].tunneledComponent != null
        && (ports[n].tunneledPort < |ports[n].tunneledComponent.ports| ==>
              ports[n].tunneledComponent.ports[ports[n].tunneledPort].dir == Output)
    }

    /** The ports that a supplier change on port n can reach. */
    ghost function Reach(n: nat): set<Port>
      reads this, ports
    {
      if n >= |ports| then {}
      else
        var p := ports[n];
        if p.dir == Input && p.tunneledComponent != null && p.tunneledPort < |p.tunneledComponent.ports|
        then {p, p.tunneledComponent.ports[p.tunneledPort]} else {p}
    }

    /**
     SetParameter with OMX_IndexParamCompBufferSupplier.  An input port relays
     the change to the output end, which relays nothing.
     */
    method SetBufferSupplier(n: nat, which: Supply) returns (err: OmxError)
      requires LeadsToOutput(n)
      modifies Reach(n)
      ensures n >= |ports| ==> err == ErrorBadPortIndex
      ensures n < |ports| && old(ports[n].enabled) && state != Loaded && state != WaitForResources ==>
                err == ErrorIncorrectStateOperation && ports[n].supplier == old(ports[n].supplier)
      ensures n < |ports| && (!old(ports[n].enabled) || state == Loaded || state == WaitForResources) ==>
                && (ports[n].dir == Output || which != FromInput || !old(ports[n].established) ==> err == ErrorNone)
                && (old(ports[n].established) && which == FromInput ==> ports[n].supplier == (ports[n].dir == Input))
                && (old(ports[n].established) && which == FromOutput ==> ports[n].supplier == (ports[n].dir == Output))
                && (!old(ports[n].established) || which == Unspecified ==> ports[n].supplier == old(ports[n].supplier))
      ensures n < |ports| && ports[n].dir == Output ==>
                && err == old(Guard(n)) && OnlySupplierChanged(ports[n])
                && ports[n].supplier == if err == ErrorNone && old(ports[n].established) && which != Unspecified then which == FromOutput
                                        else old(ports[n].supplier)
      ensures n >= |ports| || !old(ports[n].established) ==> err == old(Guard(n)) && forall q :: q in old(Reach(n)) ==> unchanged(q)
      ensures forall q :: q in old(Reach(n)) ==> OnlySupplierChanged(q)
      ensures n < |ports| && ports[n].dir == Input && old(ports[n].established) ==>
                var p, c, m := ports[n], old(ports[n].tunneledComponent), old(ports[n].tunneledPort);
                && err == (if old(Guard(n)) != ErrorNone then old(Guard(n)) else if which == FromInput then old(c.Guard(m)) else ErrorNone)
                && (m < |c.ports| && old(c.ports[m].established) ==>
                      Ends(p.supplier, c.ports[m].supplier) ==
                      old(if Guard(n) == ErrorNone then Overridden(Ends(p.supplier, c.ports[m].supplier), which, c.Guard(m) == ErrorNone)
                          else Ends(p.supplier, c.ports[m].supplier)))
      decreases if n < |ports| && ports[n].dir == Input then 1 else 0
    {
      err := Guard(n);
      if err != ErrorNone || which == Unspecified || !ports[n].established {
        return;
      }
      var p := ports[n];
      if which == FromInput && p.dir == Input {
        p.supplier := true;
        err := p.tunneledComponent.SetBufferSupplier(p.tunneledPort, which);
      } else if which == FromOutput && p.dir == Input {
        if p.supplier {
          p.supplier := false;
          err := p.tunneledComponent.SetBufferSupplier(p.tunneledPort, which);
        }
        err := ErrorNone;
      } else if which == FromOutput && p.dir == Output {
        p.supplier := true;
      } else if p.supplier {
        p.supplier := false;
      }
    }

    /** ComponentTunnelRequest on an output port: it always offers to supply. */
    method RequestOutput(n: nat, other: Component?, m: nat, setup: Setup) returns (err: OmxError)
      requires n < |ports| ==> ports[n].dir == Output
      modifies if n < |ports| then {ports[n]} else {}, setup
      ensures n >= |ports| ==> err == ErrorBadPortIndex && unchanged(setup)
      ensures n < |ports| ==> StaticKept(ports[n])
      ensures n < |ports| && other == null ==> err == ErrorNone && ports[n].Cleared() && unchanged(setup)
      ensures n < |ports| && other != null && !old(ports[n].Compatible(other, m)) ==>
                err == ErrorPortsNotCompatible && unchanged(ports[n], setup)
      ensures n < |ports| && other != null && old(ports[n].Compatible(other, m)) ==>
                && err == ErrorNone && ports[n].LinkedTo(other, m) && ports[n].supplier && ports[n].bufferSupplier == FromOutput
                && setup.supplier == FromOutput && setup.readOnly == old(setup.readOnly)
                && ports[n].numTunnelBuffer == other.ports[m].bufferCountMin && ports[n].proprietary == old(ports[n].proprietary)
    {
      if n >= |ports| {
        return ErrorBadPortIndex;
      }
      var p := ports[n];
      if other == null {
        p.Cancel();
        return ErrorNone;
      }
      if !p.Compatible(other, m) {
        return ErrorPortsNotCompatible;
      }
      p.numTunnelBuffer := other.ports[m].bufferCountMin;
      p.tunneledComponent, p.tunneledPort := other, m;
      setup.supplier := FromOutput;
      p.supplier, p.established := true, true;
      p.bufferSupplier := FromOutput;
      return ErrorNone;
    }

    /** ComponentTunnelRequest on an input port: it decides who supplies and tells the output end. */
    method RequestInput(n: nat, other: Component?, m: nat, setup: Setup) returns (err: OmxError)
      requires n < |ports| ==> ports[n].dir == Input
      requires other != null && m < |other.ports| ==> other.ports[m].dir == Output
      modifies (if n < |ports| then {ports[n]} else {}) + (if other != null && m < |other.ports| then {other.ports[m]} else {}), setup
      ensures n >= |ports| ==> err == ErrorBadPortIndex && unchanged(setup)
      ensures n < |ports| ==> StaticKept(ports[n])
      ensures n < |ports| && other == null ==> err == ErrorNone && ports[n].Cleared() && unchanged(setup)
      ensures other != null && m < |other.ports| ==>
                OnlySupplierChanged(other.ports[m]) && (err != ErrorNone ==> other.ports[m].supplier == old(other.ports[m].supplier))
      ensures n < |ports| && other != null ==>
                (err == ErrorNone <==> old(ports[n].Compatible(other, m)) && old(other.Guard(m)) == ErrorNone)
      ensures n < |ports| && other != null && err != ErrorNone ==>
                && err == ErrorPortsNotCompatible
                && (if old(ports[n].Compatible(other, m))
                    then ports[n].Loose() && ports[n].bufferSupplier == old(Told(setup.readOnly, setup.supplier, ports[n].bufferSupplier))
                    else unchanged(setup) && FlagsKept(ports[n]))
      ensures n < |ports| && other != null && err == ErrorNone ==>
                && (old(setup.readOnly || setup.supplier == FromInput || setup.supplier == Unspecified) ==>
                      ports[n].supplier && ports[n].bufferSupplier == FromInput && setup.supplier == FromInput)
                && (old(!setup.readOnly && setup.supplier == FromOutput) ==>
                      !ports[n].supplier && ports[n].bufferSupplier == old(ports[n].bufferSupplier) && setup.supplier == FromOutput)
      ensures n < |ports| && other != null && err == ErrorNone ==>
                && ports[n].LinkedTo(other, m) && ports[n].numTunnelBuffer == other.ports[m].bufferCountMin
                && ports[n].supplier == InputTakes(old(setup.readOnly), old(setup.supplier))
                && ports[n].bufferSupplier == old(Told(setup.readOnly, setup.supplier, ports[n].bufferSupplier))
                && ports[n].proprietary == old(ports[n].proprietary)
                && (old(other.ports[m].established) ==>
                      other.ports[m].supplier ==
                        match ports[n].bufferSupplier
                        case FromInput => false
                        case FromOutput => true
                        case Unspecified => old(other.ports[m].supplier))
    {
      if n >= |ports| {
        return ErrorBadPortIndex;
      }
      var p := ports[n];
      if other == null {
        p.Cancel();
        return ErrorNone;
      }
      if m < |other.ports| {
        p.numTunnelBuffer := other.ports[m].bufferCountMin;
      }
      if !p.Compatible(other, m) {
        return ErrorPortsNotCompatible;
      }
      p.Negotiate(other, m, setup);
      err := other.SetBufferSupplier(m, p.bufferSupplier);
      if err != ErrorNone {
        p.established, p.supplier, p.proprietary := false, false, false;
        return ErrorPortsNotCompatible;
      }
    }
  }

  twostate predicate OnlySupplierChanged(p: Port)
    reads p
  {
    unchanged(p`domain, p`noEncoding, p`bufferCountMin, p`enabled, p`established, p`proprietary,
              p`tunneledComponent, p`tunneledPort, p`bufferSupplier, p`numTunnelBuffer)
  }

  twostate predicate FlagsKept(p: Port)
    reads p
  {
    unchanged(p`established, p`supplier, p`proprietary, p`tunneledComponent, p`tunneledPort, p`bufferSupplier)
  }

  /** No tunnel request changes what a port is. */
  twostate predicate StaticKept(p: Port)
    reads p
  {
    unchanged(p`domain, p`noEncoding, p`bufferCountMin, p`enabled)
  }

  /** How OMX_SetupTunnel ends: with an error code, or by calling through a NULL handle. */
  datatype Outcome = Returned(err: OmxError) | NullCall

  /**
   The second stage of OMX_SetupTunnel, for whatever the output end put into the
   setup structure.
   */
  method SecondStage(hOutput: Component, nOut: nat, hInput: Component, nIn: nat, setup: Setup) returns (err: OmxError)
    requires nOut < |hOutput.ports| && hOutput.ports[nOut].dir == Output && (nIn < |hInput.ports| ==> hInput.ports[nIn].dir == Input)
    requires hOutput.ports[nOut].LinkedTo(hInput, nIn) && hOutput.ports[nOut].supplier
    modifies hOutput.ports[nOut], if nIn < |hInput.ports| then {hInput.ports[nIn]} else {}, setup
    ensures err == ErrorNone || err == ErrorPortsNotCompatible
    ensures StaticKept(hOutput.ports[nOut]) && (nIn < |hInput.ports| ==> StaticKept(hInput.ports[nIn]))
    ensures err == ErrorNone <==>
            nIn < |hInput.ports| && old(hInput.ports[nIn].Compatible(hOutput, nOut)) && old(hOutput.Guard(nOut)) == ErrorNone
    ensures err == ErrorNone ==>
            var i, o := hInput.ports[nIn], hOutput.ports[nOut];
            && i.LinkedTo(hOutput, nOut) && o.LinkedTo(hInput, nIn)
            && o.numTunnelBuffer == old(o.numTunnelBuffer) && i.numTunnelBuffer == o.bufferCountMin
            && o.bufferSupplier == old(o.bufferSupplier)
            && i.supplier == InputTakes(old(setup.readOnly), old(setup.supplier))
            && o.supplier == !(i.supplier || old(i.bufferSupplier) == FromInput)
    ensures err != ErrorNone ==>
            && hOutput.ports[nOut].Cleared()
            && (nIn < |hInput.ports| && hInput.ports[nIn].established ==> old(hInput.ports[nIn].established))
    ensures nIn < |hInput.ports| ==>
              hInput.ports[nIn].bufferSupplier ==
              if old(hInput.ports[nIn].Compatible(hOutput, nOut))
              then old(Told(setup.readOnly, setup.supplier, hInput.ports[nIn].bufferSupplier))
              else old(hInput.ports[nIn].bufferSupplier)
  {
    err := hInput.RequestInput(nIn, hOutput, nOut, setup);
    if err != ErrorNone {
      err := hOutput.RequestOutput(nOut, null, 0, setup);
      if err != ErrorNone {
        return ErrorUndefined;
      }
      return ErrorPortsNotCompatible;
    }
  }

  /** Exactly when OMX_SetupTunnel links two ports. */
  ghost predicate Acceptable(hOutput: Component, nOut: nat, hInput: Component, nIn: nat)
    reads hOutput, hInput, hOutput.ports, hInput.ports
  {
    && nOut < |hOutput.ports| && hOutput.ports[nOut].Compatible(hInput, nIn)
    && hInput.ports[nIn].Compatible(hOutput, nOut)
    && hOutput.Guard(nOut) == ErrorNone
  }

  /** All or nothing: both ends are linked to each other, or neither is. */
  method SetupTunnel(hOutput: Component?, nOut: nat, hInput: Component?, nIn: nat) returns (r: Outcome)
    requires hOutput != null && nOut < |hOutput.ports| ==> hOutput.ports[nOut].dir == Output
    requires hInput != null && nIn < |hInput.ports| ==> hInput.ports[nIn].dir == Input
    modifies if hOutput != null && nOut < |hOutput.ports| then {hOutput.ports[nOut]} else {}
    modifies if hInput != null && nIn < |hInput.ports| then {hInput.ports[nIn]} else {}
    ensures r.NullCall? <==> hOutput == null && hInput != null && nIn >= |hInput.ports|
    ensures hOutput == null && hInput == null ==> r == Returned(ErrorBadParameter)
    ensures hOutput != null && nOut >= |hOutput.ports| ==> r == Returned(ErrorBadPortIndex)
    ensures hOutput != null && nOut < |hOutput.ports| && hInput == null ==>
              r == Returned(ErrorNone) && hOutput.ports[nOut].Cleared()
    ensures hOutput == null && hInput != null && nIn < |hInput.ports| ==>
              r == Returned(ErrorNone) && hInput.ports[nIn].Cleared()
    ensures hOutput != null && hInput != null && nOut < |hOutput.ports| ==>
              r == Returned(if old(Acceptable(hOutput, nOut, hInput, nIn)) then ErrorNone else ErrorPortsNotCompatible)
    ensures hOutput != null && hInput != null && nOut < |hOutput.ports| && nIn >= |hInput.ports| ==> r == Returned(ErrorPortsNotCompatible)
    ensures hOutput != null && hInput != null && nOut < |hOutput.ports| && nIn < |hInput.ports| ==>
              && (r == Returned(ErrorNone) <==>
                    && old(hOutput.ports[nOut].domain == hInput.ports[nIn].domain)
                    && old(hOutput.ports[nOut].domain == Image || (!hOutput.ports[nOut].noEncoding && !hInput.ports[nIn].noEncoding))
                    && (hOutput.state == Loaded || hOutput.state == WaitForResources || !old(hOutput.ports[nOut].enabled)))
              && (r != Returned(ErrorNone) ==> r == Returned(ErrorPortsNotCompatible))
    ensures hOutput != null && hInput != null && r == Returned(ErrorNone) ==>
              var o, i := hOutput.ports[nOut], hInput.ports[nIn];
              && o.established && o.tunneledComponent == hInput && o.tunneledPort == nIn
              && i.established && i.tunneledComponent == hOutput && i.tunneledPort == nOut
    ensures hOutput != null && hInput == null && nOut < |hOutput.ports| ==>
              var o := hOutput.ports[nOut];
              !o.established && !o.supplier && o.tunneledComponent == null && o.tunneledPort == 0 && o.bufferSupplier == Unspecified
    ensures hOutput == null && hInput != null && nIn < |hInput.ports| ==>
              var i := hInput.ports[nIn]; !i.established && !i.supplier && i.tunneledComponent == null && i.tunneledPort == 0
    ensures hOutput != null && hInput != null && r == Returned(ErrorNone) ==>
              var o, i := hOutput.ports[nOut], hInput.ports[nIn];
              && o.LinkedTo(hInput, nIn) && i.LinkedTo(hOutput, nOut)
              && o.numTunnelBuffer == i.bufferCountMin && i.numTunnelBuffer == o.bufferCountMin
              && !i.supplier && o.supplier == (old(i.bufferSupplier) != FromInput) && o.bufferSupplier == FromOutput
    ensures hOutput != null && hInput != null && r != Returned(ErrorNone) ==>
              && (nOut < |hOutput.ports| && hOutput.ports[nOut].established ==> old(hOutput.ports[nOut].established))
              && (nIn < |hInput.ports| && hInput.ports[nIn].established ==> old(hInput.ports[nIn].established))
    ensures hInput != null && nIn < |hInput.ports| ==>
              hInput.ports[nIn].bufferSupplier == (if hOutput == null then Unspecified else old(hInput.ports[nIn].bufferSupplier))
  {
    var setup := new Setup(false, Unspecified);
    if hOutput == null && hInput == null {
      return Returned(ErrorBadParameter);
    }
    if hOutput != null {
      var err := hOutput.RequestOutput(nOut, hInput, nIn, setup);
      if err != ErrorNone {
        return Returned(err);
      }
      if hInput == null {
        return Returned(ErrorNone);
      }
      err := SecondStage(hOutput, nOut, hInput, nIn, setup);
      return Returned(err);
    }
    var err := hInput.RequestInput(nIn, null, nOut, setup);
    return if err == ErrorNone then Returned(ErrorNone) else NullCall;
  }

  /**
   An output end that leaves the choice to the input end, in a component that is
   not Loaded and so refuses to be told: the input port remembers that it supplies.
   */
  method RefusedRemembers(hOutput: Component, hInput: Component)
    requires |hOutput.ports| == |hInput.ports| == 1 && hOutput.ports[0].dir == Output && hInput.ports[0].dir == Input
    requires hOutput.ports[0].Compatible(hInput, 0) && hInput.ports[0].Compatible(hOutput, 0) && hOutput.ports[0].enabled
    requires hOutput.state == Idle
    modifies hOutput.ports[0], hInput.ports[0]
    ensures hOutput.ports[0].Cleared() && hInput.ports[0].bufferSupplier == FromInput
    ensures StaticKept(hOutput.ports[0]) && StaticKept(hInput.ports[0])
  {
    var setup := new Setup(false, Unspecified);
    var err := hOutput.RequestOutput(0, hInput, 0, setup);
    setup.supplier := Unspecified;
    err := SecondStage(hOutput, 0, hInput, 0, setup);
  }

  /** The next ordinary setup of the same ports then ends with no supplier. */
  method RefusedThenNoSupplier() returns (hOutput: Component, hInput: Component)
    ensures |hOutput.ports| == |hInput.ports| == 1
    ensures hOutput.ports[0].LinkedTo(hInput, 0) && hInput.ports[0].LinkedTo(hOutput, 0)
    ensures !hOutput.ports[0].supplier && !hInput.ports[0].supplier
  {
    var o := new Port(Output, Audio, 2);
    var i := new Port(Input, Audio, 2);
    hOutput := new Component([o]);
    hInput := new Component([i]);
    hOutput.state := Idle;
    RefusedRemembers(hOutput, hInput);
    hOutput.state := Loaded;
    var r := SetupTunnel(hOutput, 0, hInput, 0);
    assert r == Returned(ErrorNone);
  }

  // ---------------------------------------------------------------------------
  // Overriding the supplier
  // ---------------------------------------------------------------------------

  /** Which ends of a tunnel have the supplier flag. */
  datatype Ends = Ends(input: bool, output: bool)

  predicate OneSupplier(e: Ends) { e.input != e.output }

  /** What a change sent to the input end does; `accepted` says whether the output end takes a relayed change. */
  function Overridden(e: Ends, which: Supply, accepted: bool): Ends {
    match which
    case Unspecified => e
    case FromInput => Ends(true, e.output && !accepted)
    case FromOutput => if e.input then Ends(false, e.output || accepted) else e
  }

  /** A change, and whether the output end takes it if it is relayed. */
  datatype Change = Change(which: Supply, taken: bool)

  function AllOverridden(e: Ends, changes: seq<Change>): Ends {
    if changes == [] then e
    else Overridden(AllOverridden(e, changes[..|changes| - 1]), changes[|changes| - 1].which, changes[|changes| - 1].taken)
  }

  /** Who supplied at first. */
  function Holder(e: Ends): Supply { if e.input then FromInput else FromOutput }

  /** The last change that names an end, or who supplied before. */
  function LastWish(first: Supply, changes: seq<Change>): Supply {
    if changes == [] then first
    else if changes[|changes| - 1].which != Unspecified then changes[|changes| - 1].which
    else LastWish(first, changes[..|changes| - 1])
  }

  /** Change i is taken, or asks for nothing new. */
  predicate Harmless(first: Supply, changes: seq<Change>, i: nat)
    requires i < |changes|
  {
    changes[i].taken || changes[i].which == Unspecified || changes[i].which == LastWish(first, changes[..i])
  }

  /** Exactly when one change keeps one supplier. */
  lemma OneSupplierKeptExactly(e: Ends, which: Supply, accepted: bool)
    requires OneSupplier(e)
    ensures OneSupplier(Overridden(e, which, accepted)) <==> accepted || which == Unspecified || which == Holder(e)
    ensures OneSupplier(Overridden(e, which, accepted)) ==>
              Holder(Overridden(e, which, accepted)) == if which == Unspecified then Holder(e) else which
  {}

  /** Harmless changes leave one supplier, the end last asked for. */
  lemma {:induction false} OverridesKeepOneSupplier(e: Ends, changes: seq<Change>)
    requires OneSupplier(e) && forall i :: 0 <= i < |changes| ==> Harmless(Holder(e), changes, i)
    ensures OneSupplier(AllOverridden(e, changes)) && Holder(AllOverridden(e, changes)) == LastWish(Holder(e), changes)
  {
    if changes != [] {
      var n := |changes| - 1;
      var before := changes[..n];
      forall i | 0 <= i < n ensures Harmless(Holder(e), before, i) {
        assert Harmless(Holder(e), changes, i) && before[..i] == changes[..i];
      }
      OverridesKeepOneSupplier(e, before);
      assert Harmless(Holder(e), changes, n);
      OneSupplierKeptExactly(AllOverridden(e, before), changes[n].which, changes[n].taken);
    }
  }

  /** A sequence of changes keeps one supplier throughout exactly when each of them is taken or asks for nothing new. */
  lemma {:induction false} OneSupplierThroughoutExactly(e: Ends, changes: seq<Change>)
    requires OneSupplier(e)
    ensures (forall k :: 0 <= k <= |changes| ==> OneSupplier(AllOverridden(e, changes[..k]))) <==>
            (forall i :: 0 <= i < |changes| ==> Harmless(Holder(e), changes, i))
  {
    if forall i :: 0 <= i < |changes| ==> Harmless(Holder(e), changes, i) {
      forall k | 0 <= k <= |changes| ensures OneSupplier(AllOverridden(e, changes[..k])) {
        forall i | 0 <= i < k ensures Harmless(Holder(e), changes[..k], i) {
          assert Harmless(Holder(e), changes, i) && changes[..k][..i] == changes[..i];
        }
        OverridesKeepOneSupplier(e, changes[..k]);
      }
    }
    if forall k :: 0 <= k <= |changes| ==> OneSupplier(AllOverridden(e, changes[..k])) {
      AllHarmless(e, changes, |changes|);
    }
  }

  lemma {:induction false} AllHarmless(e: Ends, changes: seq<Change>, n: nat)
    requires n <= |changes| && forall k :: 0 <= k <= n ==> OneSupplier(AllOverridden(e, changes[..k]))
    ensures forall i :: 0 <= i < n ==> Harmless(Holder(e), changes, i)
    ensures OneSupplier(e) ==> Holder(AllOverridden(e, changes[..n])) == LastWish(Holder(e), changes[..n])
  {
    if n > 0 {
      AllHarmless(e, changes, n - 1);
      assert changes[..n][..n - 1] == changes[..n - 1];
      assert OneSupplier(AllOverridden(e, changes[..n - 1])) && OneSupplier(AllOverridden(e, changes[..n])) && changes[..0] == [];
      assert OneSupplier(e);
      OneSupplierKeptExactly(AllOverridden(e, changes[..n - 1]), changes[n - 1].which, changes[n - 1].taken);
    } else {
      assert changes[..0] == [];
    }
  }

  ghost function EndsOf(i: Port, o: Port): Ends reads i, o { Ends(i.supplier, o.supplier) }

  /** What the output end makes of a sequence of changes: it takes each of them, or none. */
  function Relayed(changes: seq<Supply>, taken: bool): seq<Change> {
    seq(|changes|, i requires 0 <= i < |changes| => Change(changes[i], taken))
  }

  /** A client sends changes to the input end of a tunnel. */
  method ClientOverrides(hInput: Component, nIn: nat, hOutput: Component, nOut: nat, changes: seq<Supply>)
    requires nIn < |hInput.ports| && hInput.ports[nIn].dir == Input && hInput.ports[nIn].LinkedTo(hOutput, nOut)
    requires nOut < |hOutput.ports| && hOutput.ports[nOut].dir == Output && hOutput.ports[nOut].established
    requires hInput.Guard(nIn) == ErrorNone
    modifies hInput.ports[nIn], hOutput.ports[nOut]
    ensures EndsOf(hInput.ports[nIn], hOutput.ports[nOut]) ==
            AllOverridden(old(EndsOf(hInput.ports[nIn], hOutput.ports[nOut])), Relayed(changes, old(hOutput.Guard(nOut)) == ErrorNone))
    ensures OnlySupplierChanged(hInput.ports[nIn]) && OnlySupplierChanged(hOutput.ports[nOut])
  {
    ghost var taken := hOutput.Guard(nOut) == ErrorNone;
    for k := 0 to |changes|
      invariant OnlySupplierChanged(hInput.ports[nIn]) && OnlySupplierChanged(hOutput.ports[nOut])
      invariant EndsOf(hInput.ports[nIn], hOutput.ports[nOut]) ==
                AllOverridden(old(EndsOf(hInput.ports[nIn], hOutput.ports[nOut])), Relayed(changes[..k], taken))
    {
      var err := hInput.SetBufferSupplier(nIn, changes[k]);
      assert Relayed(changes[..k + 1], taken)[..k] == Relayed(changes[..k], taken);
    }
    assert changes[..|changes|] == changes;
  }
}
