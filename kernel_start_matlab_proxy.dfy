/**
 * `StartMatlabProxyAction` on the kernel side
 * (actions/start_matlab_proxy_action.py): start matlab-proxy unless MATLAB is
 * already assigned, and answer with one "start_matlab_proxy" reply.
 */
module KernelStartMatlabProxy {
  import opened Common
  import opened Json
  import opened ActionTypes
  import opened Kernel

  /**
   * The part of the MATLAB kernel the action reads and drives:
   * `is_matlab_assigned`, and how many times
   * `start_matlab_proxy_and_comm_helper` has been called.
   */
  class MatlabKernel {
    var isMatlabAssigned: bool
    var proxyStarts: nat

    constructor(matlabAssigned: bool)
      ensures isMatlabAssigned == matlabAssigned && proxyStarts == 0
    {
      isMatlabAssigned := matlabAssigned;
      proxyStarts := 0;
    }
  }

  /** A "start_matlab_proxy" reply. */
  function StartReply(error: Json): Envelope
  {
    Reply(KernelValue(StartMatlabProxy), map[], error)
  }

  /**
   * `execute(comm, _)`. `start` is how the start call ends (`None`: it
   * returned). The proxy is started only when MATLAB is not assigned; the
   * reply has no error whenever no start failed, whether or not one happened.
   */
  method Execute(kernel: MatlabKernel, start: Option<PyError>) returns (run: Run)
    modifies kernel
    ensures kernel.isMatlabAssigned == old(kernel.isMatlabAssigned)
    ensures kernel.proxyStarts == old(kernel.proxyStarts) + (if old(kernel.isMatlabAssigned) then 0 else 1)
    ensures run.evals == [] && run.raised.None?
    ensures !old(kernel.isMatlabAssigned) && start.Some? ==> run.sent == [StartReply(ErrorText(start.value))]
    ensures old(kernel.isMatlabAssigned) || start.None? ==> run.sent == [StartReply(JNull)]
  {
    var failed: Option<PyError> := None;
    if !kernel.isMatlabAssigned {
      kernel.proxyStarts := kernel.proxyStarts + 1;
      failed := start;
    }
    if failed.Some? {
      run := Run([], [StartReply(ErrorText(failed.value))], None);
    } else {
      run := Run([], [StartReply(JNull)], None);
    }
  }

  /** With MATLAB assigned, even a start that would fail is never attempted: the reply is a success. */
  method AssignedKernelIsNotRestarted(failure: PyError) returns (run: Run, starts: nat)
    ensures run.sent == [StartReply(JNull)] && starts == 0
  {
    var kernel := new MatlabKernel(true);
    run := Execute(kernel, Some(failure));
    starts := kernel.proxyStarts;
  }

  /** Without MATLAB, the start is attempted once and its failure is reported. */
  method UnassignedKernelReportsFailure(failure: PyError) returns (run: Run, starts: nat)
    ensures run.sent == [StartReply(JStr(Str(failure)))] && starts == 1
  {
    var kernel := new MatlabKernel(false);
    run := Execute(kernel, Some(failure));
    starts := kernel.proxyStarts;
  }
}
