/** The shared state of the service hall: the four kiosks (`kioskos`) and the
    notification record of each of the three waiters (`notificaciones_meseros`),
    with the invariants every handler keeps. */
module KioskState {

  datatype Option<+T> = None | Some(value: T)

  /** A wall-clock stamp as the server writes it ("%H:%M:%S"). It is never the
      empty string, so "the stamp is set" and "the stamp is truthy" coincide. */
  type Clock = s: string | s != "" witness "00:00:00"

  datatype Estado = Libre | Pendiente | EnAtencion

  /** The last transition a kiosk went through (its `ultima_accion`). */
  datatype Accion =
    | SolicitudEnviada
    | AtendidoPor(mesero: string)
    | ConfirmadoPor(mesero: string)
    | ServicioFinalizado
    | ServicioCancelado

  datatype Kiosk = Kiosk(
    estado: Estado,
    mesero: Option<string>,
    inicio: Option<Clock>,
    fin: Option<Clock>,
    ultimaAccion: Option<Accion>)

  /** A waiter's pending alert, read by the waiter's handheld device. */
  datatype Notice = Notice(notificacion: bool, kiosko: Option<string>, timestamp: Option<Clock>)

  datatype State = State(kioskos: map<string, Kiosk>, meseros: map<string, Notice>)

  /** The kiosks in the order the dictionary was built, which is the order
      every scan over them follows. */
  const KioskOrder: seq<string> := ["kiosko-1", "kiosko-2", "kiosko-3", "kiosko-4"]
  const WaiterOrder: seq<string> := ["mesero1", "mesero2", "mesero3"]

  const KioskIds: set<string> := set k | k in KioskOrder
  const WaiterIds: set<string> := set w | w in WaiterOrder

  const FreeKiosk: Kiosk := Kiosk(Libre, None, None, None, None)
  const Quiet: Notice := Notice(false, None, None)

  /** Every kiosk free, every notification cleared: the state at process start. */
  function Initial(): (s: State)
    ensures s.kioskos.Keys == KioskIds && s.meseros.Keys == WaiterIds
    ensures forall k :: k in s.kioskos ==> s.kioskos[k] == Kiosk(Libre, None, None, None, None)
    ensures forall w :: w in s.meseros ==> s.meseros[w] == Notice(false, None, None)
  {
    State(map k | k in KioskIds :: FreeKiosk, map w | w in WaiterIds :: Quiet)
  }

  /** Kiosk `kk` is being attended by waiter `w`. */
  predicate AttendedBy(kk: Kiosk, w: string)
  {
    kk.estado == EnAtencion && kk.mesero == Some(w)
  }

  /** Waiter `w` is attending some kiosk. */
  ghost predicate Busy(ks: map<string, Kiosk>, w: string)
  {
    exists k :: k in ks && AttendedBy(ks[k], w)
  }

  /** No kiosk is created or destroyed. */
  ghost predicate WellFormed(s: State)
  {
    s.kioskos.Keys == KioskIds && s.meseros.Keys == WaiterIds
  }

  /** A kiosk has a waiter exactly while it is being attended. */
  ghost predicate WaiterIffAttending(ks: map<string, Kiosk>)
  {
    forall k :: k in ks ==> (ks[k].mesero.Some? <==> ks[k].estado == EnAtencion)
  }

  /** A kiosk carries a start stamp exactly while it is not free. */
  ghost predicate StartIffBusy(ks: map<string, Kiosk>)
  {
    forall k :: k in ks ==> (ks[k].inicio.Some? <==> ks[k].estado != Libre)
  }

  /** No waiter attends two kiosks at once. */
  ghost predicate MutualExclusion(ks: map<string, Kiosk>)
  {
    forall k1, k2, w :: k1 in ks && k2 in ks && AttendedBy(ks[k1], w) && AttendedBy(ks[k2], w) ==> k1 == k2
  }

  /** A raised notification names a kiosk this waiter is attending; a cleared
      one names no kiosk. */
  ghost predicate NoticeConsistent(s: State, w: string)
    requires w in s.meseros
  {
    var n := s.meseros[w];
    && (n.notificacion <==> n.kiosko.Some?)
    && (n.notificacion ==> n.kiosko.value in s.kioskos && AttendedBy(s.kioskos[n.kiosko.value], w))
  }

  ghost predicate NoticesConsistent(s: State)
  {
    forall w :: w in s.meseros ==> NoticeConsistent(s, w)
  }

  /** The invariant of the hall, kept by every handler. */
  ghost predicate Valid(s: State)
  {
    && WellFormed(s)
    && WaiterIffAttending(s.kioskos)
    && StartIffBusy(s.kioskos)
    && MutualExclusion(s.kioskos)
    && NoticesConsistent(s)
  }

  lemma InitialValid()
    ensures Valid(Initial())
  {
  }

  /** The first kiosk, in scan order `order`, that waiter `w` is attending. */
  function FirstAttending(ks: map<string, Kiosk>, order: seq<string>, w: string): (r: Option<string>)
    ensures r.Some? ==> r.value in order && r.value in ks && AttendedBy(ks[r.value], w)
    ensures r.None? <==> forall i :: 0 <= i < |order| && order[i] in ks ==> !AttendedBy(ks[order[i]], w)
    ensures r.Some? ==>
              exists i :: (0 <= i < |order| && order[i] == r.value &&
                           forall j :: 0 <= j < i && order[j] in ks ==> !AttendedBy(ks[order[j]], w))
  {
    if order == [] then None
    else if order[0] in ks && AttendedBy(ks[order[0]], w) then Some(order[0])
    else FirstAttending(ks, order[1..], w)
  }

  /** Scanning all kiosks finds one exactly when the waiter is busy. */
  lemma ScanFindsBusy(ks: map<string, Kiosk>, w: string)
    requires ks.Keys == KioskIds
    ensures FirstAttending(ks, KioskOrder, w).Some? <==> Busy(ks, w)
  {
  }

  /** When no waiter attends two kiosks, the scan names the one kiosk the
      waiter is attending, whatever the scan order. */
  lemma ScanNamesTheKiosk(ks: map<string, Kiosk>, order: seq<string>, w: string, k: string)
    requires MutualExclusion(ks)
    requires k in ks && k in order && AttendedBy(ks[k], w)
    ensures FirstAttending(ks, order, w) == Some(k)
  {
  }
}
