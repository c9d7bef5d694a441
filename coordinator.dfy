/** The server's module-level state: two dictionaries that the route
    handlers read and update field by field. */
module Coordinator {
  import opened KioskState
  import opened Transitions
  import Properties

  class Board {
    /** `kioskos`: kiosk id to its record. */
    var kioskos: map<string, Kiosk>
    /** `notificaciones_meseros`: waiter id to its alert. */
    var notificaciones: map<string, Notice>

    function Snapshot(): State
      reads this
    {
      State(kioskos, notificaciones)
    }

    ghost predicate Valid()
      reads this
    {
      KioskState.Valid(Snapshot())
    }

    constructor ()
      ensures Snapshot() == Initial()
      ensures Valid()
    {
      kioskos := map["kiosko-1" := FreeKiosk, "kiosko-2" := FreeKiosk,
                     "kiosko-3" := FreeKiosk, "kiosko-4" := FreeKiosk];
      notificaciones := map["mesero1" := Quiet, "mesero2" := Quiet, "mesero3" := Quiet];
      InitialValid();
    }

    /** The kiosk scan: the first kiosk, in dictionary order, that waiter
        `w` is attending. */
    method FindAttending(w: string) returns (found: Option<string>)
      ensures found == FirstAttending(kioskos, KioskOrder, w)
    {
      var i := 0;
      while i < |KioskOrder|
        invariant 0 <= i <= |KioskOrder|
        invariant FirstAttending(kioskos, KioskOrder, w) == FirstAttending(kioskos, KioskOrder[i..], w)
      {
        var k := KioskOrder[i];
        if k in kioskos && AttendedBy(kioskos[k], w) {
          return Some(k);
        }
        i := i + 1;
      }
      return None;
    }

    /** `obtener_disponibilidad_meseros`: for each waiter of the pool,
        whether it is free and which kiosk it attends. */
    method Disponibilidad() returns (d: map<string, Availability>)
      ensures d.Keys == WaiterIds
      ensures forall w :: w in d ==> d[w] == AvailabilityOf(kioskos, w)
    {
      d := map[];
      var i := 0;
      while i < |WaiterOrder|
        invariant 0 <= i <= |WaiterOrder|
        invariant forall w :: w in d <==> w in WaiterOrder[..i]
        invariant forall w :: w in d ==> d[w] == AvailabilityOf(kioskos, w)
      {
        var w := WaiterOrder[i];
        var asignado := FindAttending(w);
        d := d[w := Availability(asignado.None?, asignado.Some?, asignado)];
        i := i + 1;
      }
      assert WaiterOrder[..i] == WaiterOrder;
    }

    /** `obtener_notificacion_mesero`. */
    method ObtenerNotificacion(w: string) returns (r: Option<Notice>)
      ensures r == Notificacion(Snapshot(), w)
    {
      if w in notificaciones {
        return Some(notificaciones[w]);
      }
      return None;
    }

    /** `limpiar_notificacion_mesero`. */
    method LimpiarNotificacion(w: string) returns (r: Outcome)
      requires Valid()
      modifies this
      ensures Valid()
      ensures Step(Snapshot(), r) == Limpiar(old(Snapshot()), w)
    {
      ghost var s0 := Snapshot();
      Properties.LimpiarKeepsValid(s0, w);
      if w in notificaciones {
        var n := notificaciones[w];
        n := n.(notificacion := false);
        n := n.(kiosko := None);
        notificaciones := notificaciones[w := n];
        return Done;
      }
      return Rejected(WaiterUnknown);
    }

    /** `solicitar`. */
    method Solicitar(k: string, now: Clock) returns (r: Outcome)
      requires Valid()
      modifies this
      ensures Valid()
      ensures Step(Snapshot(), r) == Transitions.Solicitar(old(Snapshot()), k, now)
    {
      ghost var s0 := Snapshot();
      Properties.SolicitarKeepsValid(s0, k, now);
      if k in kioskos && kioskos[k].estado == Libre {
        var kk := kioskos[k];
        kk := kk.(estado := Pendiente);
        kk := kk.(inicio := Some(now));
        kk := kk.(ultimaAccion := Some(SolicitudEnviada));
        kioskos := kioskos[k := kk];
        return Done;
      }
      return Rejected(NotAvailable);
    }

    /** `atender`. */
    method Atender(k: string, w: string, now: Clock) returns (r: Outcome)
      requires Valid()
      modifies this
      ensures Valid()
      ensures Step(Snapshot(), r) == Transitions.Atender(old(Snapshot()), k, w, now)
    {
      ghost var s0 := Snapshot();
      Properties.AtenderKeepsValid(s0, k, w, now);
      if k !in kioskos {
        return Rejected(KioskUnknown);
      }
      var otro := FindAttending(w);
      if otro.Some? {
        return Rejected(AlreadyAttending(otro.value));
      }
      if kioskos[k].estado == Pendiente || kioskos[k].estado == Libre {
        var kk := kioskos[k];
        kk := kk.(estado := EnAtencion);
        kk := kk.(mesero := Some(w));
        if kk.inicio.None? {
          kk := kk.(inicio := Some(now));
        }
        kk := kk.(ultimaAccion := Some(AtendidoPor(w)));
        kioskos := kioskos[k := kk];
        if w in notificaciones {
          var n := notificaciones[w];
          n := n.(notificacion := true);
          n := n.(kiosko := Some(k));
          n := n.(timestamp := Some(now));
          notificaciones := notificaciones[w := n];
        }
        return Done;
      }
      return Rejected(CannotBeAttended);
    }

    /** `confirmar_atencion`. */
    method Confirmar(k: string, w: string) returns (r: Outcome)
      requires Valid()
      modifies this
      ensures Valid()
      ensures Step(Snapshot(), r) == Transitions.Confirmar(old(Snapshot()), k, w)
    {
      ghost var s0 := Snapshot();
      Properties.ConfirmarKeepsValid(s0, k, w);
      if k !in kioskos {
        return Rejected(KioskUnknown);
      }
      if kioskos[k].mesero != Some(w) {
        return Rejected(WrongWaiter(kioskos[k].mesero));
      }
      if kioskos[k].estado != EnAtencion {
        return Rejected(NotAttending);
      }
      if w in notificaciones {
        var n := notificaciones[w];
        n := n.(notificacion := false);
        n := n.(kiosko := None);
        notificaciones := notificaciones[w := n];
      }
      var kk := kioskos[k];
      kk := kk.(ultimaAccion := Some(ConfirmadoPor(w)));
      kioskos := kioskos[k := kk];
      return Done;
    }

    /** `finalizar`. */
    method Finalizar(k: string, now: Clock) returns (r: Outcome)
      requires Valid()
      modifies this
      ensures Valid()
      ensures Step(Snapshot(), r) == Transitions.Finalizar(old(Snapshot()), k, now)
    {
      ghost var s0 := Snapshot();
      Properties.FinalizarKeepsValid(s0, k, now);
      if k !in kioskos {
        return Rejected(KioskUnknown);
      }
      if kioskos[k].estado == Libre {
        return Rejected(AlreadyFree);
      }
      var mesero := kioskos[k].mesero;
      if mesero.Some? && mesero.value in notificaciones {
        var n := notificaciones[mesero.value];
        n := n.(notificacion := false);
        n := n.(kiosko := None);
        notificaciones := notificaciones[mesero.value := n];
      }
      var kk := kioskos[k];
      kk := kk.(fin := Some(now));
      kk := kk.(ultimaAccion := Some(ServicioFinalizado));
      kk := kk.(estado := Libre);
      kk := kk.(mesero := None);
      kk := kk.(inicio := None);
      kioskos := kioskos[k := kk];
      return Done;
    }

    /** `cancelar`. */
    method Cancelar(k: string) returns (r: Outcome)
      requires Valid()
      modifies this
      ensures Valid()
      ensures Step(Snapshot(), r) == Transitions.Cancelar(old(Snapshot()), k)
    {
      ghost var s0 := Snapshot();
      Properties.CancelarKeepsValid(s0, k);
      if k !in kioskos {
        return Rejected(KioskUnknown);
      }
      if !(kioskos[k].estado == Pendiente || kioskos[k].estado == EnAtencion) {
        return Rejected(NotCancellable);
      }
      var mesero := kioskos[k].mesero;
      if mesero.Some? && mesero.value in notificaciones {
        var n := notificaciones[mesero.value];
        n := n.(notificacion := false);
        n := n.(kiosko := None);
        notificaciones := notificaciones[mesero.value := n];
      }
      var kk := kioskos[k];
      kk := kk.(fin := None);
      kk := kk.(ultimaAccion := Some(ServicioCancelado));
      kk := kk.(estado := Libre);
      kk := kk.(mesero := None);
      kk := kk.(inicio := None);
      kioskos := kioskos[k := kk];
      return Done;
    }
  }
}
