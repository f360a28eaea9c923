/** The controller side of one Q-Channel: the QREQn register and the two interface states
    the sequencer looks at (ARM IHI 0068D, section 2.1.2). */
module QchMaster {

  /** The next value of QREQn from the synchronised device responses. */
  function NextReq(qreqn: bool, stopReq: bool, exitReq: bool, qacceptn: bool, qdeny: bool): bool {
    if qreqn then
      !(stopReq && qacceptn && !qdeny)
    else
      (qacceptn && qdeny) || (exitReq && !qacceptn && !qdeny)
  }

  predicate QRun(qreqn: bool, qacceptn: bool, qdeny: bool) {
    qreqn && qacceptn && !qdeny
  }

  predicate QStopped(qreqn: bool, qacceptn: bool, qdeny: bool) {
    !qreqn && !qacceptn && !qdeny
  }

  class Controller {
    var qreqn: bool

    constructor ()
      ensures !qreqn
    {
      qreqn := false;
    }

    method Reset()
      modifies this
      ensures !qreqn
    {
      qreqn := false;
    }

    method Tick(stopReq: bool, exitReq: bool, qacceptn: bool, qdeny: bool)
      modifies this
      ensures old(qreqn) && !qreqn <==> old(qreqn) && stopReq && qacceptn && !qdeny
      ensures !old(qreqn) && qreqn <==>
              !old(qreqn) && qacceptn == qdeny && (qacceptn || exitReq)
      ensures qreqn == NextReq(old(qreqn), stopReq, exitReq, qacceptn, qdeny)
    {
      if qreqn {
        if stopReq && qacceptn && !qdeny {
          qreqn := false;
        }
      } else {
        if qacceptn && qdeny {
          qreqn := true;
        } else if exitReq && !qacceptn && !qdeny {
          qreqn := true;
        }
      }
    }
  }
}
