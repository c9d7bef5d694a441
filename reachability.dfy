/** Every state the server can reach from start-up, by any sequence of
    requests, keeps the invariant of the hall; in particular no waiter ever
    attends two kiosks at once. */
module Reachability {
  import opened KioskState
  import opened Transitions
  import opened Properties

  /** One request to a state-changing route, with the stamp the server read
      when it handled it. */
  datatype Request =
    | SolicitarReq(k: string, now: Clock)
    | AtenderReq(k: string, w: string, now: Clock)
    | ConfirmarReq(k: string, w: string)
    | FinalizarReq(k: string, now: Clock)
    | CancelarReq(k: string)
    | LimpiarReq(w: string)

  function Apply(s: State, req: Request): Step
  {
    match req
    case SolicitarReq(k, now) => Solicitar(s, k, now)
    case AtenderReq(k, w, now) => Atender(s, k, w, now)
    case ConfirmarReq(k, w) => Confirmar(s, k, w)
    case FinalizarReq(k, now) => Finalizar(s, k, now)
    case CancelarReq(k) => Cancelar(s, k)
    case LimpiarReq(w) => Limpiar(s, w)
  }

  /** The requests handled one after another, each as one atomic step. */
  function Run(s: State, reqs: seq<Request>): State
    decreases |reqs|
  {
    if reqs == [] then s else Run(Apply(s, reqs[0]).state, reqs[1..])
  }

  /** Every refusal is decided before anything is written. */
  lemma RejectionChangesNothing(s: State, req: Request)
    ensures Apply(s, req).outcome.Rejected? ==> Apply(s, req).state == s
  {
  }

  /** Requests never add or remove kiosks or waiters. */
  lemma ApplyKeepsKeys(s: State, req: Request)
    ensures Apply(s, req).state.kioskos.Keys == s.kioskos.Keys
    ensures Apply(s, req).state.meseros.Keys == s.meseros.Keys
  {
  }

  lemma ApplyKeepsValid(s: State, req: Request)
    requires Valid(s)
    ensures Valid(Apply(s, req).state)
  {
    match req
    case SolicitarReq(k, now) => SolicitarKeepsValid(s, k, now);
    case AtenderReq(k, w, now) => AtenderKeepsValid(s, k, w, now);
    case ConfirmarReq(k, w) => ConfirmarKeepsValid(s, k, w);
    case FinalizarReq(k, now) => FinalizarKeepsValid(s, k, now);
    case CancelarReq(k) => CancelarKeepsValid(s, k);
    case LimpiarReq(w) => LimpiarKeepsValid(s, w);
  }

  lemma {:induction false} RunKeepsValid(s: State, reqs: seq<Request>)
    requires Valid(s)
    ensures Valid(Run(s, reqs))
    decreases |reqs|
  {
    if reqs != [] {
      ApplyKeepsValid(s, reqs[0]);
      RunKeepsValid(Apply(s, reqs[0]).state, reqs[1..]);
    }
  }

  /** In every reachable state no waiter attends two kiosks, a kiosk has a
      waiter exactly while it is attended, and a raised alert names the
      kiosk its waiter is attending. */
  lemma ReachableStatesAreValid(reqs: seq<Request>)
    ensures Valid(Run(Initial(), reqs))
    ensures MutualExclusion(Run(Initial(), reqs).kioskos)
  {
    InitialValid();
    RunKeepsValid(Initial(), reqs);
  }
}
