/** Concrete runs from the start-up state: a full service cycle and the
    refusals a second claim, a wrong confirmation and a cancel of a free
    kiosk meet. */
module Scenarios {
  import opened KioskState
  import opened Transitions

  /** Request, claim, confirm and finish at kiosko-1 by mesero1: every step
      succeeds, the claim keeps the request time, and the kiosk ends free
      with the finish time recorded and mesero1's alert cleared. */
  lemma FullCycle(t1: Clock, t2: Clock, t3: Clock)
    ensures var s1 := Solicitar(Initial(), "kiosko-1", t1);
      var s2 := Atender(s1.state, "kiosko-1", "mesero1", t2);
      var s3 := Confirmar(s2.state, "kiosko-1", "mesero1");
      var s4 := Finalizar(s3.state, "kiosko-1", t3);
      && s1.outcome == Done && s2.outcome == Done && s3.outcome == Done && s4.outcome == Done
      && s2.state.kioskos["kiosko-1"].inicio == Some(t1)
      && s2.state.meseros["mesero1"] == Notice(true, Some("kiosko-1"), Some(t2))
      && s3.state.meseros["mesero1"] == Notice(false, None, Some(t2))
      && s4.state.kioskos["kiosko-1"] == Kiosk(Libre, None, None, Some(t3), Some(ServicioFinalizado))
      && !s4.state.meseros["mesero1"].notificacion
  {
  }

  /** A waiter attending kiosko-2 cannot claim kiosko-3: the refusal names
      kiosko-2 and kiosko-3 stays as it was. */
  lemma SecondClaimRefused(t1: Clock, t2: Clock)
    ensures var s1 := Atender(Initial(), "kiosko-2", "mesero1", t1);
      var s2 := Atender(s1.state, "kiosko-3", "mesero1", t2);
      && s1.outcome == Done
      && AttendedBy(s1.state.kioskos["kiosko-2"], "mesero1")
      && s1.state.meseros["mesero1"] == Notice(true, Some("kiosko-2"), Some(t1))
      && s2 == Step(s1.state, Rejected(AlreadyAttending("kiosko-2")))
  {
  }

  /** Confirming kiosko-1 as mesero2 while mesero1 holds it is refused,
      naming mesero1, and changes nothing. */
  lemma WrongWaiterRefused(t1: Clock)
    ensures var s1 := Atender(Initial(), "kiosko-1", "mesero1", t1);
      Confirmar(s1.state, "kiosko-1", "mesero2") == Step(s1.state, Rejected(WrongWaiter(Some("mesero1"))))
  {
  }

  /** Cancelling a free kiosk is refused. */
  lemma CancelFreeRefused()
    ensures Cancelar(Initial(), "kiosko-4") == Step(Initial(), Rejected(NotCancellable))
  {
  }
}
