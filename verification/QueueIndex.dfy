// Which of a server's 3 * numcpus queues serves a CPU and a kind of request.
module QueueIndex {
  import opened Layout

  datatype QpType = QP_READ_SYNC | QP_READ_ASYNC | QP_WRITE_SYNC

  // None where the code stops at BUG().
  function GetQueueType(idx: nat, numcpus: nat): Option<QpType> {
    if idx < numcpus then Some(QP_READ_SYNC)
    else if idx < numcpus * 2 then Some(QP_READ_ASYNC)
    else if idx < numcpus * 3 then Some(QP_WRITE_SYNC)
    else None
  }

  function GetQueue(cpu: nat, kind: QpType, numcpus: nat): nat {
    match kind
    case QP_READ_SYNC => cpu
    case QP_READ_ASYNC => cpu + numcpus
    case QP_WRITE_SYNC => cpu + numcpus * 2
  }

  // Every queue below 3 * numcpus serves exactly one (cpu, kind), the one whose kind
  // get_queue_type reports; no other index is ever used.
  lemma QueueBijection(numcpus: nat, idx: nat)
    ensures idx < numcpus * 3 <==>
              exists cpu, kind :: 0 <= cpu < numcpus && GetQueue(cpu, kind, numcpus) == idx
    ensures forall cpu, kind :: 0 <= cpu < numcpus && GetQueue(cpu, kind, numcpus) == idx ==>
              GetQueueType(idx, numcpus) == Some(kind)
    ensures forall cpu, kind, cpu', kind' ::
              0 <= cpu < numcpus && 0 <= cpu' < numcpus
              && GetQueue(cpu, kind, numcpus) == idx && GetQueue(cpu', kind', numcpus) == idx ==>
              cpu == cpu' && kind == kind'
  {
    if idx < numcpus {
      assert GetQueue(idx, QP_READ_SYNC, numcpus) == idx;
    } else if idx < numcpus * 2 {
      assert GetQueue(idx - numcpus, QP_READ_ASYNC, numcpus) == idx;
    } else if idx < numcpus * 3 {
      assert GetQueue(idx - numcpus * 2, QP_WRITE_SYNC, numcpus) == idx;
    }
  }
}
