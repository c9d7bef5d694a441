/** What each handler does to the hall, as a function from the state before
    to the state after and the handler's answer. */
module Transitions {
  import opened KioskState

  /** Why a handler refused; each reason is a distinct message of the server. */
  datatype Reason =
    | KioskUnknown                            // "Kiosko no existe"
    | NotAvailable                            // "<kiosko> no disponible"
    | AlreadyAttending(other: string)         // "<mesero> ya está atendiendo <k>"
    | CannotBeAttended                        // "<kiosko> no puede ser atendido"
    | WrongWaiter(actual: Option<string>)     // "Mesero incorrecto. <kiosko> está asignado a <m>"
    | NotAttending                            // "<kiosko> no está en atención"
    | AlreadyFree                             // "<kiosko> está libre, no necesita finalizar"
    | NotCancellable                          // "<kiosko> no está en estado cancelable"
    | WaiterUnknown                           // "Mesero no existe"

  datatype Outcome = Done | Rejected(reason: Reason)

  datatype Step = Step(state: State, outcome: Outcome)

  /** What the availability query reports for one waiter. */
  datatype Availability = Availability(disponible: bool, ocupado: bool, kiosko: Option<string>)

  /** Clears waiter `w`'s notification if `w` is in the pool; the stamp stays. */
  function Cleared(ms: map<string, Notice>, w: Option<string>): (r: map<string, Notice>)
    ensures r.Keys == ms.Keys
    ensures forall x :: x in ms && Some(x) != w ==> r[x] == ms[x]
    ensures w.Some? && w.value in ms ==>
              r[w.value] == ms[w.value].(notificacion := false, kiosko := None)
  {
    if w.Some? && w.value in ms then ms[w.value := ms[w.value].(notificacion := false, kiosko := None)]
    else ms
  }

  /** `solicitar`: a customer asks for help at kiosk `k`. */
  function Solicitar(s: State, k: string, now: Clock): Step
  {
    if k in s.kioskos && s.kioskos[k].estado == Libre then
      var kk := s.kioskos[k].(estado := Pendiente, inicio := Some(now), ultimaAccion := Some(SolicitudEnviada));
      Step(s.(kioskos := s.kioskos[k := kk]), Done)
    else
      Step(s, Rejected(NotAvailable))
  }

  /** `atender`: waiter `w` claims kiosk `k`. The waiter need not be in the
      pool; only then is a notification raised. */
  function Atender(s: State, k: string, w: string, now: Clock): Step
  {
    if k !in s.kioskos then Step(s, Rejected(KioskUnknown))
    else
      match FirstAttending(s.kioskos, KioskOrder, w)
      case Some(other) => Step(s, Rejected(AlreadyAttending(other)))
      case None =>
        var old_k := s.kioskos[k];
        if old_k.estado == Pendiente || old_k.estado == Libre then
          var kk := old_k.(estado := EnAtencion, mesero := Some(w),
                           inicio := if old_k.inicio.Some? then old_k.inicio else Some(now),
                           ultimaAccion := Some(AtendidoPor(w)));
          var ms := if w in s.meseros then s.meseros[w := Notice(true, Some(k), Some(now))] else s.meseros;
          Step(State(s.kioskos[k := kk], ms), Done)
        else
          Step(s, Rejected(CannotBeAttended))
  }

  /** `confirmar_atencion`: waiter `w` confirms, by RFID, that it is at kiosk `k`. */
  function Confirmar(s: State, k: string, w: string): Step
  {
    if k !in s.kioskos then Step(s, Rejected(KioskUnknown))
    else if s.kioskos[k].mesero != Some(w) then Step(s, Rejected(WrongWaiter(s.kioskos[k].mesero)))
    else if s.kioskos[k].estado != EnAtencion then Step(s, Rejected(NotAttending))
    else
      var kk := s.kioskos[k].(ultimaAccion := Some(ConfirmadoPor(w)));
      Step(State(s.kioskos[k := kk], Cleared(s.meseros, Some(w))), Done)
  }

  /** `finalizar`: the service at kiosk `k` ends; the end stamp is kept. */
  function Finalizar(s: State, k: string, now: Clock): Step
  {
    if k !in s.kioskos then Step(s, Rejected(KioskUnknown))
    else if s.kioskos[k].estado == Libre then Step(s, Rejected(AlreadyFree))
    else
      var kk := Kiosk(Libre, None, None, Some(now), Some(ServicioFinalizado));
      Step(State(s.kioskos[k := kk], Cleared(s.meseros, s.kioskos[k].mesero)), Done)
  }

  /** `cancelar`: the request at kiosk `k` is dropped; no end stamp remains. */
  function Cancelar(s: State, k: string): Step
  {
    if k !in s.kioskos then Step(s, Rejected(KioskUnknown))
    else if !(s.kioskos[k].estado == Pendiente || s.kioskos[k].estado == EnAtencion) then
      Step(s, Rejected(NotCancellable))
    else
      var kk := Kiosk(Libre, None, None, None, Some(ServicioCancelado));
      Step(State(s.kioskos[k := kk], Cleared(s.meseros, s.kioskos[k].mesero)), Done)
  }

  /** `limpiar_notificacion_mesero`: waiter `w`'s device acknowledges its alert. */
  function Limpiar(s: State, w: string): Step
  {
    if w in s.meseros then Step(s.(meseros := Cleared(s.meseros, Some(w))), Done)
    else Step(s, Rejected(WaiterUnknown))
  }

  /** `obtener_notificacion_mesero`: the notification record of waiter `w`,
      or None when `w` is not in the pool. */
  function Notificacion(s: State, w: string): Option<Notice>
  {
    if w in s.meseros then Some(s.meseros[w]) else None
  }

  /** `obtener_disponibilidad_meseros`, for one waiter. */
  function AvailabilityOf(ks: map<string, Kiosk>, w: string): Availability
  {
    var found := FirstAttending(ks, KioskOrder, w);
    Availability(found.None?, found.Some?, found)
  }
}
