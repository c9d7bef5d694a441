# Kiosk and waiter assignment, modelled in Dafny

The server coordinates four service kiosks (`kiosko-1` … `kiosko-4`) and three
waiters (`mesero1` … `mesero3`). A customer asks for help at a kiosk
(`solicitar`). A waiter claims it (`atender`) and confirms arrival with an RFID
read (`confirmar_atencion`). The service then ends (`finalizar`) or is
dropped (`cancelar`). Each waiter has a notification record that its handheld
device polls (`obtener_notificacion_mesero`) and clears
(`limpiar_notificacion_mesero`). A read-only query reports which waiters are
busy (`obtener_disponibilidad_meseros`).

The project has six modules:

- `KioskState` (kiosk_state.dfy): the records (`Kiosk`, `Notice`, `State`), the
  start-up state and the invariant `Valid`. It also holds the kiosk scan
  `FirstAttending`, which both the claim and the availability query use. The
  invariant has five parts:
  - no kiosk or waiter is ever added or removed;
  - a kiosk has a waiter exactly while it is `EnAtencion`;
  - a kiosk has a start stamp exactly while it is not `Libre`;
  - no waiter attends two kiosks;
  - a raised notification names a kiosk that its waiter is attending.
- `Transitions` (transitions.dfy): each handler as a function from the state
  before to the state after, plus the handler's outcome (`Done`, or
  `Rejected` with one `Reason` per distinct server message).
- `Properties` (properties.dfy): for each handler, when it succeeds, what it
  changes, what it leaves alone, and that it keeps `Valid`.
- `Reachability` (reachability.dfy): any sequence of requests from start-up
  keeps `Valid`, so no reachable state has a waiter attending two kiosks.
- `Coordinator` (coordinator.dfy): the class `Board`. It holds the two
  module-level dictionaries as `map` fields. Its methods update them one field
  at a time, as the handlers do, and each method's postcondition ties the new
  state and the outcome to the matching `Transitions` function. The scan and
  the availability query are loops.
- `Scenarios` (scenarios.dfy): concrete runs from start-up: one full cycle,
  and three of the refusals.

The wall clock is a parameter `now`. It is a non-empty string, as
`strftime("%H:%M:%S")` produces. The transition functions accept any state.
The `Board` methods require the class invariant `Valid()`: the constructor
establishes it and every method keeps it.

Behaviour the model follows exactly as the code has it:

- The claim's busy scan covers every kiosk, including the one being claimed
  (api.py:104-107; the comment at api.py:104 says its purpose is to keep a
  waiter from attending while already at another kiosk). A waiter that claims
  the kiosk it is already attending gets "already attending that kiosk", not
  "cannot be attended".
- The claim does not check that the waiter is in the pool (api.py:101-118).
  An unknown waiter can be assigned; only its notification is skipped
  (api.py:118).
- The end stamp `fin` set by `finalizar` (api.py:168) stays through the next
  request, which does not touch it (api.py:92-94). Only `cancelar` clears it
  (api.py:190).
- `solicitar` on an unknown kiosk gives the same answer as on a busy one,
  "no disponible" (api.py:91, 96).
- A waiter's device can clear its own notification directly through the
  route (api.py:78-86).

## Model

| member | source | states |
|---|---|---|
| KioskState.Initial | api.py:19-32 | At start-up the hall has exactly the four kiosks and the three waiters. Every kiosk is `Libre` with no waiter, no stamps and no last action, and every notification is lowered with no kiosk and no stamp |
| KioskState.InitialValid | api.py:19-32 | The start-up state satisfies the whole invariant |
| KioskState.FirstAttending | api.py:105-107 | The scan returns a kiosk only if that kiosk is in the hall and attended by the waiter, and no kiosk before it in scan order is. It returns nothing exactly when no kiosk in scan order is attended by the waiter |
| KioskState.ScanFindsBusy | api.py:105-107 | Over the fixed kiosk set, the scan finds a kiosk exactly when the waiter is attending some kiosk |
| KioskState.ScanNamesTheKiosk | api.py:56-60 | When no waiter attends two kiosks, the scan returns the one kiosk the waiter attends |
| Transitions.Cleared | api.py:164-166 | Clearing a pooled waiter lowers its flag and drops its kiosk. The stamp, the other waiters and the key set are unchanged |
| Properties.UnknownKioskRejected | api.py:88-182 | Every kiosk handler refuses an id outside the hall and leaves the state unchanged. `solicitar` answers "no disponible"; the others answer "Kiosko no existe" |
| Properties.SolicitarSpec | api.py:91-96 | A help request succeeds iff the kiosk is `Libre`. The kiosk becomes `Pendiente` with start stamp `now`, and its waiter and end stamp are untouched. Nothing else changes. Otherwise the answer is "no disponible" and nothing changes |
| Properties.SolicitarLeavesNoWaiter | api.py:91-94 | On a valid hall, a kiosk that has just become pending has no waiter |
| Properties.AtenderRefusesBusyWaiter | api.py:104-107 | For a known kiosk, the claim is refused as "already attending" iff the waiter is attending some kiosk. The refusal names a kiosk the waiter attends, namely the first one in scan order, and changes nothing |
| Properties.AtenderNamesTheOtherKiosk | api.py:104-107 | On a valid hall, a claim by a waiter who attends kiosk `o` is refused naming `o`, and nothing changes |
| Properties.AtenderAgreesWithAvailability | api.py:51-66 | For a known kiosk, the claim's busy refusal happens iff the availability query reports the waiter not `disponible`. The kiosk it names is the one the query reports, and `ocupado` is always the negation of `disponible`. The two loops in the source (api.py:56-60 and api.py:105-107) test the same condition (api.py:57 and api.py:106), so the model shares one scan between them and this agreement holds by construction |
| Properties.AtenderSpec | api.py:109-124 | A claim succeeds iff the kiosk exists, the waiter is not busy and the kiosk is `Libre` or `Pendiente`. On success only that kiosk changes: it is attended by the waiter, keeps an earlier start stamp (else takes `now`), keeps its end stamp and records the claim. A pooled waiter's notification becomes raised, naming the kiosk with stamp `now`, and no other notification changes. For an unpooled waiter no notification changes |
| Properties.AtenderRefusesAttendedKiosk | api.py:109-125 | Claiming a kiosk that is already `EnAtencion`, by a waiter who is not busy, is refused as "no puede ser atendido" with no change |
| Properties.AvailabilityMeaning | api.py:51-66 | Over the fixed kiosk set, a waiter is reported `disponible` iff it attends no kiosk, `ocupado` iff it attends one, and the reported kiosk is one it attends |
| Properties.AvailabilityNamesTheKiosk | api.py:55-60 | When no waiter attends two kiosks, the query reports a waiter who attends `k` as busy at `k` |
| Properties.ConfirmarSpec | api.py:132-151 | On a known kiosk, a waiter mismatch is refused naming the waiter actually assigned, with no change. Confirmation succeeds iff the kiosk is attended by that waiter, and every refusal changes nothing. On success only the kiosk's audit note changes; its state, waiter and stamps stay. The waiter's notification is lowered with its kiosk dropped and its stamp kept, and no other notification changes |
| Properties.ConfirmarNeverNotAttending | api.py:139-141 | While a kiosk has a waiter exactly when it is attended, confirmation never answers "no está en atención" |
| Properties.FinalizarSpec | api.py:156-173 | Finishing succeeds iff the kiosk exists and is not `Libre`. A `Libre` kiosk is refused with no change. On success only that kiosk changes: it becomes `Libre` with no waiter, no start stamp and end stamp `now`. The previously assigned waiter's notification is lowered and no other notification changes |
| Properties.FinalizarTwice | api.py:159-160 | A second finish right after a first is always refused and changes nothing |
| Properties.FinSurvivesNextRequest | api.py:168-172 | After a successful finish, the next help request at that kiosk succeeds and the kiosk keeps the finish time as its end stamp |
| Properties.CancelarSpec | api.py:178-195 | Cancelling succeeds iff the kiosk exists and is `Pendiente` or `EnAtencion`. A `Libre` kiosk is refused as "no está en estado cancelable" with no change. On success only that kiosk changes: it becomes `Libre` with no waiter and no stamps. The assigned waiter's notification is lowered and no other notification changes |
| Properties.LimpiarSpec | api.py:80-86 | Clearing the notification of an unknown waiter is refused and changes nothing. For a known waiter it lowers the flag and drops the kiosk, keeps the stamp, and changes no kiosk and no other notification |
| Properties.ClaimRaisesAlert | api.py:117-121 | After a successful claim by a pooled waiter, that waiter's device reads a raised alert naming the kiosk, stamped `now` |
| Properties.AlertBelongsToWaiter | api.py:162-166 | On a valid hall, a notification that names a kiosk belongs to that kiosk's assigned waiter |
| Properties.FinishClearsAlerts | api.py:162-166 | On a valid hall, after finishing a kiosk no notification names it |
| Properties.CancelClearsAlerts | api.py:184-188 | On a valid hall, after cancelling a kiosk no notification names it |
| Properties.SolicitarKeepsValid | api.py:91-94 | A help request keeps the invariant |
| Properties.AtenderKeepsValid | api.py:104-121 | A claim keeps the invariant, including mutual exclusion of waiters |
| Properties.ConfirmarKeepsValid | api.py:143-149 | A confirmation keeps the invariant |
| Properties.FinalizarKeepsValid | api.py:162-172 | Finishing keeps the invariant |
| Properties.CancelarKeepsValid | api.py:184-194 | Cancelling keeps the invariant |
| Properties.LimpiarKeepsValid | api.py:82-84 | Clearing a notification keeps the invariant |
| Reachability.RejectionChangesNothing | api.py:80-195 | Every refused request, of every kind, leaves both dictionaries as they were |
| Reachability.ApplyKeepsKeys | api.py:19-32 | No request adds or removes a kiosk or a waiter |
| Reachability.ApplyKeepsValid | api.py:80-195 | Every state-changing request keeps the invariant |
| Reachability.RunKeepsValid | api.py:80-195 | Any sequence of requests, handled one at a time, keeps the invariant |
| Reachability.ReachableStatesAreValid | api.py:104-107 | Every state reachable from start-up satisfies the invariant; in particular no waiter attends two kiosks |
| Coordinator.Board.constructor | api.py:19-32 | The dictionaries start as the start-up state, which satisfies the invariant |
| Coordinator.Board.FindAttending | api.py:105-107 | The loop over kiosks in dictionary order returns the first kiosk the waiter attends, or nothing |
| Coordinator.Board.Disponibilidad | api.py:44-68 | The query loop reports every pooled waiter and no one else, each with its availability as the scan defines it |
| Coordinator.Board.ObtenerNotificacion | api.py:71-76 | Returns the waiter's notification record, or nothing for a waiter outside the pool |
| Coordinator.Board.LimpiarNotificacion | api.py:79-86 | Updates the notification fields in place. The new dictionaries and the answer are those of `Transitions.Limpiar`, and the invariant is kept |
| Coordinator.Board.Solicitar | api.py:88-96 | Updates the kiosk fields in place. The new dictionaries and the answer are those of `Transitions.Solicitar`, and the invariant is kept |
| Coordinator.Board.Atender | api.py:98-125 | Scans, then updates kiosk and notification fields in place. The new dictionaries and the answer are those of `Transitions.Atender`, and the invariant is kept |
| Coordinator.Board.Confirmar | api.py:128-151 | Checks, then updates fields in place. The new dictionaries and the answer are those of `Transitions.Confirmar`, and the invariant is kept |
| Coordinator.Board.Finalizar | api.py:153-173 | Clears the waiter's notification, then frees the kiosk field by field. The new dictionaries and the answer are those of `Transitions.Finalizar`, and the invariant is kept |
| Coordinator.Board.Cancelar | api.py:175-195 | Clears the waiter's notification, then frees the kiosk field by field. The new dictionaries and the answer are those of `Transitions.Cancelar`, and the invariant is kept |
| Scenarios.FullCycle | api.py:88-173 | Request, claim, confirm and finish at kiosko-1 by mesero1 all succeed. The claim keeps the request time, the confirmation lowers mesero1's notification, and the kiosk ends `Libre` with the finish time recorded |
| Scenarios.SecondClaimRefused | api.py:104-107 | After mesero1 claims kiosko-2, its claim of kiosko-3 is refused naming kiosko-2, and nothing changes |
| Scenarios.WrongWaiterRefused | api.py:135-137 | Confirming kiosko-1 as mesero2 while mesero1 holds it is refused naming mesero1, and nothing changes |
| Scenarios.CancelFreeRefused | api.py:181-182 | Cancelling a free kiosk is refused as not cancellable, and nothing changes |

## Left out

- HTTP plumbing is not modelled: the Flask app, CORS, JSON responses with status codes and message text, `render_template`, and the `print` logging in each handler. Handlers return an outcome and a reason, not a response.
- The `/estado` route only returns the kiosk dictionary. That is `Board.Snapshot().kioskos`, so it has no method of its own.
- `exportar` is not modelled. It builds a spreadsheet with pandas and xlsxwriter: counts, a floating-point mean of durations computed from "%H:%M:%S" strings, and charts.
- Process start-up is not modelled: address lookup, the banner and `app.run`.
- Concurrency is not modelled. The server runs handlers on several threads with no lock. The model treats each request as one atomic step and does not cover interleavings.
- The wall clock is a parameter `now` for each request. `atender` reads the clock twice, for the start stamp and for the notification stamp; the model uses one `now` for both.
- static/app.js, the browser interface, is not part of this model.
