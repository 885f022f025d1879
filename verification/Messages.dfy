/** Messages and records as objects that are copied and edited in place. */
module Messages {
  import opened Dns

  class Record {
    var name: string
    var rrtype: nat
    var ttl: nat
    var data: RData

    constructor (v: RR)
      ensures Value() == v
    {
      name, rrtype, ttl, data := v.name, v.rrtype, v.ttl, v.data;
    }

    function Value(): RR
      reads this
    {
      RR(name, rrtype, ttl, data)
    }
  }

  function Values(records: seq<Record>): seq<RR>
    reads records
  {
    seq(|records|, i requires 0 <= i < |records| reads records => records[i].Value())
  }

  /** No object stands at two places, so that editing one place edits no other. */
  ghost predicate Unshared(records: seq<Record>) {
    forall i, j :: 0 <= i < j < |records| ==> records[i] != records[j]
  }

  method CopyRecords(records: seq<Record>) returns (copy: seq<Record>)
    ensures Values(copy) == Values(records)
    ensures Unshared(copy) && fresh(copy)
  {
    copy := [];
    for i := 0 to |records|
      invariant |copy| == i && Unshared(copy) && fresh(copy)
      invariant forall j :: 0 <= j < i ==> copy[j].Value() == records[j].Value()
    {
      var record := new Record(records[i].Value());
      copy := copy + [record];
    }
  }

  class Message {
    var id: nat
    var rcode: int
    var question: seq<Question>
    var answer: seq<Record>
    var ns: seq<Record>
    var extra: seq<Record>

    constructor (id: nat, rcode: int, question: seq<Question>, answer: seq<Record>, ns: seq<Record>, extra: seq<Record>)
      ensures this.id == id && this.rcode == rcode && this.question == question
      ensures this.answer == answer && this.ns == ns && this.extra == extra
    {
      this.id, this.rcode, this.question := id, rcode, question;
      this.answer, this.ns, this.extra := answer, ns, extra;
    }

    function Records(): seq<Record>
      reads this
    {
      answer + ns + extra
    }

    ghost function Footprint(): set<object>
      reads this
    {
      {this as object} + (set r | r in answer) + (set r | r in ns) + (set r | r in extra)
    }

    function Value(): Msg
      reads Footprint()
    {
      Msg(id, rcode, question, Values(answer), Values(ns), Values(extra))
    }

    /** A copy shares nothing with its original. */
    method Copy() returns (copy: Message)
      ensures copy.Value() == Value()
      ensures fresh(copy.Footprint()) && Unshared(copy.Records())
      ensures fresh(copy.answer) && fresh(copy.ns) && fresh(copy.extra)
    {
      var answer' := CopyRecords(answer);
      var ns' := CopyRecords(ns);
      var extra' := CopyRecords(extra);
      copy := new Message(id, rcode, question, answer', ns', extra');
    }
  }
}
