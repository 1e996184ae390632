/**
  The plain one-slot pipeline register (rtl/interfaces/axis_register.sv), which is also how the
  statistics engine and the flow table pass data through.
 */
module AxisRegister {
  import opened NpePkg
  import opened ElasticChain

  class Register {
    var pipeValid: bool
    var pipeBeat: Beat

    ghost function State(): Stage<(), Beat>
      reads this
    {
      Stage((), if pipeValid then Some(pipeBeat) else None)
    }

    constructor ()
      ensures State().slot.None?
    {
      pipeValid := false;
    }

    predicate SReady(mReady: bool)
      reads this
      ensures SReady(mReady) <==> StageReady(State(), mReady)
    {
      mReady || !pipeValid
    }

    function MValid(): (v: bool)
      reads this
      ensures v <==> State().slot.Some?
      ensures v ==> State().slot == Some(pipeBeat)
    {
      pipeValid
    }

    method Clock(rstN: bool, sValid: bool, s: Beat, mReady: bool)
      modifies this
      ensures rstN ==> State() == StageNext(PassStep<Beat>(), old(State()), if sValid then Some(s) else None, mReady)
      ensures !rstN ==> State().slot.None?
    {
      if !rstN {
        pipeValid := false;
      } else if mReady || !pipeValid {
        pipeBeat := s;
        pipeValid := sValid;
      }
    }
  }
}
