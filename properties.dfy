/** What each handler promises: when it succeeds, what it changes, what it
    leaves alone, and that it keeps the invariant of the hall. */
module Properties {
  import opened KioskState
  import opened Transitions

  /** `t` differs from `s` at most in kiosk `k`. */
  ghost predicate OnlyKioskChanged(s: State, t: State, k: string)
  {
    && t.kioskos.Keys == s.kioskos.Keys
    && forall x :: x in s.kioskos && x != k ==> t.kioskos[x] == s.kioskos[x]
  }

  /** `t` differs from `s` at most in the notification of waiter `w`. */
  ghost predicate OnlyNoticeChanged(s: State, t: State, w: string)
  {
    && t.meseros.Keys == s.meseros.Keys
    && forall x :: x in s.meseros && x != w ==> t.meseros[x] == s.meseros[x]
  }

  /** The notification of `w` in `t` is that of `s`, cleared, stamp kept. */
  ghost predicate NoticeCleared(s: State, t: State, w: string)
    requires w in s.meseros && w in t.meseros
  {
    && !t.meseros[w].notificacion
    && t.meseros[w].kiosko == None
    && t.meseros[w].timestamp == s.meseros[w].timestamp
  }

  // ---------------------------------------------------------------- unknown ids

  /** A kiosk id outside the hall is refused by every kiosk handler, and
      nothing changes. */
  lemma UnknownKioskRejected(s: State, k: string, w: string, now: Clock)
    requires k !in s.kioskos
    ensures Solicitar(s, k, now) == Step(s, Rejected(NotAvailable))
    ensures Atender(s, k, w, now) == Step(s, Rejected(KioskUnknown))
    ensures Confirmar(s, k, w) == Step(s, Rejected(KioskUnknown))
    ensures Finalizar(s, k, now) == Step(s, Rejected(KioskUnknown))
    ensures Cancelar(s, k) == Step(s, Rejected(KioskUnknown))
  {
  }

  // ---------------------------------------------------------------- solicitar

  /** Asking for help succeeds exactly on a free kiosk; the kiosk becomes
      pending with the request time as its start, and nothing else changes. */
  lemma SolicitarSpec(s: State, k: string, now: Clock)
    ensures var r := Solicitar(s, k, now);
      && (r.outcome == Done <==> k in s.kioskos && s.kioskos[k].estado == Libre)
      && (r.outcome != Done ==> r == Step(s, Rejected(NotAvailable)))
      && (r.outcome == Done ==>
            && OnlyKioskChanged(s, r.state, k)
            && r.state.meseros == s.meseros
            && r.state.kioskos[k].estado == Pendiente
            && r.state.kioskos[k].inicio == Some(now)
            && r.state.kioskos[k].mesero == s.kioskos[k].mesero
            && r.state.kioskos[k].fin == s.kioskos[k].fin
            && r.state.kioskos[k].ultimaAccion == Some(SolicitudEnviada))
  {
  }

  /** On a valid hall a pending kiosk has no waiter yet. */
  lemma SolicitarLeavesNoWaiter(s: State, k: string, now: Clock)
    requires Valid(s)
    requires Solicitar(s, k, now).outcome == Done
    ensures Solicitar(s, k, now).state.kioskos[k].mesero == None
  {
  }

  // ---------------------------------------------------------------- atender

  /** The claim is refused, naming a kiosk the waiter attends, exactly when
      the waiter is busy; the kiosk named is the first one the scan meets. */
  lemma AtenderRefusesBusyWaiter(s: State, k: string, w: string, now: Clock)
    requires s.kioskos.Keys == KioskIds
    requires k in s.kioskos
    ensures var r := Atender(s, k, w, now);
      && (r.outcome.Rejected? && r.outcome.reason.AlreadyAttending? <==> Busy(s.kioskos, w))
      && (r.outcome.Rejected? && r.outcome.reason.AlreadyAttending? ==>
            && r.state == s
            && r.outcome.reason.other in s.kioskos
            && AttendedBy(s.kioskos[r.outcome.reason.other], w)
            && Some(r.outcome.reason.other) == FirstAttending(s.kioskos, KioskOrder, w))
  {
  }

  /** On a valid hall the kiosk named is the only one the waiter attends. */
  lemma AtenderNamesTheOtherKiosk(s: State, k: string, w: string, other: string, now: Clock)
    requires Valid(s)
    requires k in s.kioskos && other in s.kioskos && AttendedBy(s.kioskos[other], w)
    ensures Atender(s, k, w, now) == Step(s, Rejected(AlreadyAttending(other)))
  {
  }

  /** The claim's busy check and the availability query agree for every
      waiter. The server runs two separate loops for them, but both test the
      same condition (the kiosk is being attended by that waiter), so the
      model uses the one scan `FirstAttending` for both and this agreement
      holds by construction; what the scan means is `AvailabilityMeaning`. */
  lemma AtenderAgreesWithAvailability(s: State, k: string, w: string, now: Clock)
    requires k in s.kioskos
    ensures var a := AvailabilityOf(s.kioskos, w);
      && (a.ocupado <==> !a.disponible)
      && (!a.disponible <==> exists o :: Atender(s, k, w, now).outcome == Rejected(AlreadyAttending(o)))
      && (forall o :: Atender(s, k, w, now).outcome == Rejected(AlreadyAttending(o)) ==> a.kiosko == Some(o))
  {
  }

  /** A claim succeeds exactly on a free or pending kiosk whose claimant is
      not busy. The kiosk becomes attended by the claimant, keeps an earlier
      start stamp, and the claimant, if in the pool, is notified. */
  lemma AtenderSpec(s: State, k: string, w: string, now: Clock)
    requires WellFormed(s)
    ensures var r := Atender(s, k, w, now);
      && (r.outcome == Done <==>
            k in s.kioskos && !Busy(s.kioskos, w) && s.kioskos[k].estado in {Libre, Pendiente})
      && (r.outcome == Done ==>
            && OnlyKioskChanged(s, r.state, k)
            && AttendedBy(r.state.kioskos[k], w)
            && r.state.kioskos[k].inicio == (if s.kioskos[k].inicio.Some? then s.kioskos[k].inicio else Some(now))
            && r.state.kioskos[k].fin == s.kioskos[k].fin
            && r.state.kioskos[k].ultimaAccion == Some(AtendidoPor(w))
            && OnlyNoticeChanged(s, r.state, w)
            && (w in s.meseros ==> r.state.meseros[w] == Notice(true, Some(k), Some(now)))
            && (w !in s.meseros ==> r.state.meseros == s.meseros))
  {
  }

  /** A kiosk already attended cannot be claimed by a waiter who is free:
      the claim is refused and nothing changes. */
  lemma AtenderRefusesAttendedKiosk(s: State, k: string, w: string, now: Clock)
    requires WellFormed(s)
    requires k in s.kioskos && s.kioskos[k].estado == EnAtencion && !Busy(s.kioskos, w)
    ensures Atender(s, k, w, now) == Step(s, Rejected(CannotBeAttended))
  {
  }

  /** The availability query reports a waiter busy exactly when it attends
      some kiosk, and names a kiosk it attends. */
  lemma AvailabilityMeaning(ks: map<string, Kiosk>, w: string)
    requires ks.Keys == KioskIds
    ensures var a := AvailabilityOf(ks, w);
      && (a.disponible <==> !Busy(ks, w))
      && (a.ocupado <==> Busy(ks, w))
      && (a.kiosko.Some? <==> Busy(ks, w))
      && (a.kiosko.Some? ==> a.kiosko.value in ks && AttendedBy(ks[a.kiosko.value], w))
  {
  }

  /** When no waiter attends two kiosks, the kiosk reported is the one the
      waiter attends. */
  lemma AvailabilityNamesTheKiosk(ks: map<string, Kiosk>, w: string, k: string)
    requires MutualExclusion(ks)
    requires k in ks && k in KioskOrder && AttendedBy(ks[k], w)
    ensures AvailabilityOf(ks, w) == Availability(false, true, Some(k))
  {
  }

  // ---------------------------------------------------------------- confirmar

  /** Confirmation checks the waiter first and names the one assigned; when
      it succeeds only the audit note and the waiter's alert change. */
  lemma ConfirmarSpec(s: State, k: string, w: string)
    ensures var r := Confirmar(s, k, w);
      && (k in s.kioskos && s.kioskos[k].mesero != Some(w) ==>
            r == Step(s, Rejected(WrongWaiter(s.kioskos[k].mesero))))
      && (r.outcome == Done <==> k in s.kioskos && AttendedBy(s.kioskos[k], w))
      && (r.outcome.Rejected? ==> r.state == s)
      && (r.outcome == Done ==>
            && OnlyKioskChanged(s, r.state, k)
            && r.state.kioskos[k] == s.kioskos[k].(ultimaAccion := Some(ConfirmadoPor(w)))
            && OnlyNoticeChanged(s, r.state, w)
            && (w in s.meseros ==> NoticeCleared(s, r.state, w)))
  {
  }

  /** On a valid hall the "not being attended" refusal never happens: the
      waiter check already rejects every kiosk not attended by that waiter. */
  lemma ConfirmarNeverNotAttending(s: State, k: string, w: string)
    requires WaiterIffAttending(s.kioskos)
    ensures Confirmar(s, k, w).outcome != Rejected(NotAttending)
  {
  }

  // ---------------------------------------------------------------- finalizar

  /** Finishing succeeds exactly on a kiosk that is not free. The kiosk is
      freed with the end time recorded, and its waiter's alert is cleared. */
  lemma FinalizarSpec(s: State, k: string, now: Clock)
    ensures var r := Finalizar(s, k, now);
      && (r.outcome == Done <==> k in s.kioskos && s.kioskos[k].estado != Libre)
      && (k in s.kioskos && s.kioskos[k].estado == Libre ==> r == Step(s, Rejected(AlreadyFree)))
      && (r.outcome == Done ==>
            && OnlyKioskChanged(s, r.state, k)
            && r.state.kioskos[k] == Kiosk(Libre, None, None, Some(now), Some(ServicioFinalizado))
            && var m := s.kioskos[k].mesero;
               && (m.Some? ==> OnlyNoticeChanged(s, r.state, m.value))
               && (m.Some? && m.value in s.meseros ==> NoticeCleared(s, r.state, m.value))
               && (m.None? ==> r.state.meseros == s.meseros))
  {
  }

  /** A second finish in a row is always refused and changes nothing. */
  lemma FinalizarTwice(s: State, k: string, t1: Clock, t2: Clock)
    ensures var s1 := Finalizar(s, k, t1).state;
      Finalizar(s1, k, t2).outcome.Rejected? && Finalizar(s1, k, t2).state == s1
  {
  }

  /** The end stamp of a finished service is still there after the next
      request for help at the same kiosk: only cancelling removes it. */
  lemma FinSurvivesNextRequest(s: State, k: string, t1: Clock, t2: Clock)
    requires Finalizar(s, k, t1).outcome == Done
    ensures var s1 := Finalizar(s, k, t1).state;
      && Solicitar(s1, k, t2).outcome == Done
      && Solicitar(s1, k, t2).state.kioskos[k].fin == Some(t1)
  {
  }

  // ---------------------------------------------------------------- cancelar

  /** Cancelling succeeds exactly on a pending or attended kiosk. The kiosk is
      freed with no end time, and its waiter's alert is cleared. */
  lemma CancelarSpec(s: State, k: string)
    ensures var r := Cancelar(s, k);
      && (r.outcome == Done <==> k in s.kioskos && s.kioskos[k].estado in {Pendiente, EnAtencion})
      && (k in s.kioskos && s.kioskos[k].estado == Libre ==> r == Step(s, Rejected(NotCancellable)))
      && (r.outcome == Done ==>
            && OnlyKioskChanged(s, r.state, k)
            && r.state.kioskos[k] == Kiosk(Libre, None, None, None, Some(ServicioCancelado))
            && var m := s.kioskos[k].mesero;
               && (m.Some? ==> OnlyNoticeChanged(s, r.state, m.value))
               && (m.Some? && m.value in s.meseros ==> NoticeCleared(s, r.state, m.value))
               && (m.None? ==> r.state.meseros == s.meseros))
  {
  }

  // ---------------------------------------------------------------- limpiar

  /** Clearing an alert fails for a waiter outside the pool and changes
      nothing; otherwise it clears that waiter's alert and keeps its stamp. */
  lemma LimpiarSpec(s: State, w: string)
    ensures var r := Limpiar(s, w);
      && (w !in s.meseros ==> r == Step(s, Rejected(WaiterUnknown)))
      && (w in s.meseros ==>
            && r.outcome == Done
            && r.state.kioskos == s.kioskos
            && OnlyNoticeChanged(s, r.state, w)
            && NoticeCleared(s, r.state, w))
  {
  }

  // ---------------------------------------------------------------- notification lifecycle

  /** After a successful claim by a pooled waiter, the waiter's device reads
      a raised alert naming the kiosk. */
  lemma ClaimRaisesAlert(s: State, k: string, w: string, now: Clock)
    requires w in s.meseros
    requires Atender(s, k, w, now).outcome == Done
    ensures Notificacion(Atender(s, k, w, now).state, w) == Some(Notice(true, Some(k), Some(now)))
  {
  }

  /** On a valid hall an alert that names a kiosk belongs to that kiosk's waiter. */
  lemma AlertBelongsToWaiter(s: State, k: string, w: string)
    requires Valid(s)
    requires w in s.meseros && s.meseros[w].kiosko == Some(k)
    ensures k in s.kioskos && s.kioskos[k].mesero == Some(w)
  {
  }

  /** On a valid hall, once a kiosk is finished no alert names it. */
  lemma FinishClearsAlerts(s: State, k: string, now: Clock)
    requires Valid(s)
    ensures forall w :: w in Finalizar(s, k, now).state.meseros ==>
              Finalizar(s, k, now).state.meseros[w].kiosko != Some(k)
  {
  }

  /** On a valid hall, once a kiosk is cancelled no alert names it. */
  lemma CancelClearsAlerts(s: State, k: string)
    requires Valid(s)
    ensures forall w :: w in Cancelar(s, k).state.meseros ==>
              Cancelar(s, k).state.meseros[w].kiosko != Some(k)
  {
  }

  // ---------------------------------------------------------------- invariant

  lemma SolicitarKeepsValid(s: State, k: string, now: Clock)
    requires Valid(s)
    ensures Valid(Solicitar(s, k, now).state)
  {
  }

  lemma AtenderKeepsValid(s: State, k: string, w: string, now: Clock)
    requires Valid(s)
    ensures Valid(Atender(s, k, w, now).state)
  {
  }

  lemma ConfirmarKeepsValid(s: State, k: string, w: string)
    requires Valid(s)
    ensures Valid(Confirmar(s, k, w).state)
  {
  }

  lemma FinalizarKeepsValid(s: State, k: string, now: Clock)
    requires Valid(s)
    ensures Valid(Finalizar(s, k, now).state)
  {
  }

  lemma CancelarKeepsValid(s: State, k: string)
    requires Valid(s)
    ensures Valid(Cancelar(s, k).state)
  {
  }

  lemma LimpiarKeepsValid(s: State, w: string)
    requires Valid(s)
    ensures Valid(Limpiar(s, w).state)
  {
  }
}
