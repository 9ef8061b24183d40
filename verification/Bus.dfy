/** The message bus of the protocol: one FIFO queue per subscription of a NEVER_DROP message type. */
module MessageBus {
  import opened Basics

  class Bus {
    var commands: seq<Command>               // command router
    var routerSafety: seq<SafetyMsg>
    var authorityRequests: seq<ModeRequestMsg>   // system modes
    var authorityRouted: seq<Command>
    var authoritySafety: seq<SafetyMsg>
    var authoritySyncs: seq<SyncRequestMsg>
    var heartbeats: seq<string>              // fault
    var faultEvents: seq<FaultEvent>
    var faultActivations: seq<Activation>
    var payloadSafety: seq<SafetyMsg>        // payload
    var payloadFaults: seq<FaultEvent>
    var payloadActivations: seq<Activation>
    var acks: seq<Ack>                       // storage, downlink
    var records: seq<TransitionMsg>

    constructor ()
      ensures commands == [] && routerSafety == []
      ensures authorityRequests == [] && authorityRouted == [] && authoritySafety == [] && authoritySyncs == []
      ensures heartbeats == [] && faultEvents == [] && faultActivations == []
      ensures payloadSafety == [] && payloadFaults == [] && payloadActivations == []
      ensures acks == [] && records == []
    {
      commands, routerSafety := [], [];
      authorityRequests, authorityRouted, authoritySafety, authoritySyncs := [], [], [], [];
      heartbeats, faultEvents, faultActivations := [], [], [];
      payloadSafety, payloadFaults, payloadActivations := [], [], [];
      acks, records := [], [];
    }

    method PublishRouted(c: Command)
      modifies this`authorityRouted
      ensures authorityRouted == old(authorityRouted) + [c]
    {
      authorityRouted := authorityRouted + [c];
    }

    method PublishAck(a: Ack)
      modifies this`acks
      ensures acks == old(acks) + [a]
    {
      acks := acks + [a];
    }

    method PublishFault(e: FaultEvent)
      modifies this`faultEvents, this`payloadFaults
      ensures faultEvents == old(faultEvents) + [e]
      ensures payloadFaults == old(payloadFaults) + [e]
    {
      faultEvents := faultEvents + [e];
      payloadFaults := payloadFaults + [e];
    }

    method PublishRequest(r: ModeRequestMsg)
      modifies this`authorityRequests
      ensures authorityRequests == old(authorityRequests) + [r]
    {
      authorityRequests := authorityRequests + [r];
    }

    method PublishRecord(t: TransitionMsg)
      modifies this`records
      ensures records == old(records) + [t]
    {
      records := records + [t];
    }

    method PublishActivation(a: Activation)
      modifies this`faultActivations, this`payloadActivations
      ensures faultActivations == old(faultActivations) + [a]
      ensures payloadActivations == old(payloadActivations) + [a]
    {
      faultActivations := faultActivations + [a];
      payloadActivations := payloadActivations + [a];
    }

    /** Safety evidence goes to router, authority and payload alike. */
    method PublishSafety(m: SafetyMsg)
      modifies this`routerSafety, this`authoritySafety, this`payloadSafety
      ensures routerSafety == old(routerSafety) + [m]
      ensures authoritySafety == old(authoritySafety) + [m]
      ensures payloadSafety == old(payloadSafety) + [m]
    {
      routerSafety := routerSafety + [m];
      authoritySafety := authoritySafety + [m];
      payloadSafety := payloadSafety + [m];
    }

    method PublishHeartbeat(subsystem: string)
      modifies this`heartbeats
      ensures heartbeats == old(heartbeats) + [subsystem]
    {
      heartbeats := heartbeats + [subsystem];
    }
  }
}
