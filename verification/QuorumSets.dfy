/**
 Messages collected by identifier and sender (src/replication/common/quorumset.h).
 */
module QuorumSets {

  datatype Quorum<Msg> = NoQuorum | Messages(votes: map<nat, Msg>)

  /** The messages collected for `id`; a nested map is created when it is first looked up. */
  function Of<Id(==), Msg>(messages: map<Id, map<nat, Msg>>, id: Id): map<nat, Msg> {
    if id in messages then messages[id] else map[]
  }

  class QuorumSet<Id(==), Msg> {
    const numRequired: nat
    var messages: map<Id, map<nat, Msg>>

    constructor (numRequired: nat)
      ensures this.numRequired == numRequired && messages == map[]
    {
      this.numRequired := numRequired;
      messages := map[];
    }

    method Clear()
      modifies this
      ensures messages == map[]
    {
      messages := map[];
    }

    method GetMessages(id: Id) returns (votes: map<nat, Msg>)
      modifies this
      ensures votes == Of(old(messages), id) && messages == old(messages)[id := votes]
    {
      votes := Of(messages, id);
      messages := messages[id := votes];
    }

    method CheckForQuorum(id: Id) returns (quorum: Quorum<Msg>)
      modifies this
      ensures messages == old(messages)[id := Of(old(messages), id)]
      ensures quorum.Messages? <==> |messages[id]| >= numRequired
      ensures quorum.Messages? ==> quorum.votes == messages[id]
    {
      var votes := GetMessages(id);
      if |votes| < numRequired { return NoQuorum; }
      return Messages(votes);
    }

    /** A later message from the same sender replaces the earlier one, so a sender counts once. */
    method AddAndCheckForQuorum(id: Id, from: nat, msg: Msg) returns (quorum: Quorum<Msg>)
      modifies this
      ensures messages == old(messages)[id := Of(old(messages), id)[from := msg]]
      ensures quorum.Messages? <==> |messages[id]| >= numRequired
      ensures quorum.Messages? ==> quorum.votes == messages[id]
    {
      messages := messages[id := Of(messages, id)[from := msg]];
      quorum := CheckForQuorum(id);
    }
  }
}
