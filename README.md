# Clinic appointment registry (clinica4) in Dafny

This project models the console clinic manager of `clinica4/Program.cs`: a
registry service (`ClinicaService`) holding three append-only lists
(patients, doctors, appointments) and the menu-driven console interface
(`ClinicaUI`) that fills them.

- `modelo.dfy` (module `Modelo`): the records `Paciente`, `Doctor` and
  `Cita` as classes, so that an appointment holds the very patient and
  doctor objects of the registry, and the registry invariant `Consistente`
  (every appointment's patient and doctor are in the lists).
- `servicio.dfy` (module `Servicio`): `ClinicaService` as a class whose three
  lists are `seq` fields; each registration or scheduling appends exactly one
  fresh record and leaves the other lists alone.
- `consola.dfy` (module `Consola`): the console as a script of input lines
  and a list of written messages.
- `flujos.dfy` (module `Flujos`): a specification of one menu iteration as
  functions of the current patient and doctor counts and the input
  (`LeerPaso` and the per-flow `LeerRegistroPaciente`, `LeerRegistroDoctor`,
  `LeerCita`), the relation `Aplicado` saying how each effect changes the
  three lists, a whole-run function `Corrida` with the effects `Traza` it
  applies, the relation `Refleja` between those effects and the entries
  they append, and lemmas about them.
- `interfaz.dfy` (module `Interfaz`): `ClinicaUI` as a class with the menu
  loop and the four flows written imperatively, each proved to behave as
  its specification function says; the numbered listings as loops.

Input lines: the console's `ReadLine` is replaced by a script of `Linea`
values. `int.Parse` and `DateTime.Parse` are culture-dependent library code,
so each line carries its raw text together with the result of parsing it
as an integer and as a date (`None` where the parse would throw). A read
past the end of the script stands for `ReadLine` returning null.

A patient's age is any `int`, negative included, because `RegistrarPaciente`
accepts any `int` without checking it.

## Model

| member | source | states |
|---|---|---|
| Modelo.SinCitasEsConsistente | clinica4/Program.cs:31-33 | the registry invariant `Consistente` (every appointment's patient and doctor are in the lists) holds for any registry without appointments, the state the service starts in |
| Modelo.CitasConRegistros | clinica4/Program.cs:158-168 | a consistent registry holding any appointment has at least one patient and one doctor |
| Modelo.Paciente.constructor | clinica4/Program.cs:8-13 | a patient holds exactly the name, age and phone it was built with |
| Modelo.Doctor.constructor | clinica4/Program.cs:15-19 | a doctor holds exactly the name and specialty it was built with |
| Modelo.Cita.constructor | clinica4/Program.cs:21-26 | an appointment holds the very patient and doctor objects given, not copies, and the date |
| Servicio.ClinicaService.constructor | clinica4/Program.cs:31-33 | a new registry starts with three empty lists |
| Servicio.ClinicaService.RegistrarPaciente | clinica4/Program.cs:35-44 | one fresh patient with the given name, age and phone is appended at the end; earlier patients keep their places; doctors and appointments are unchanged; any values are accepted |
| Servicio.ClinicaService.RegistrarDoctor | clinica4/Program.cs:46-54 | one fresh doctor with the given name and specialty is appended at the end; patients and appointments are unchanged |
| Servicio.ClinicaService.ObtenerPacientes | clinica4/Program.cs:56-59 | yields the registry's own patient list, in registration order |
| Servicio.ClinicaService.ObtenerDoctores | clinica4/Program.cs:61-64 | yields the registry's own doctor list, in registration order |
| Servicio.ClinicaService.AgendarCita | clinica4/Program.cs:66-75 | one fresh appointment referring to the given patient and doctor objects, with the given date, is appended; patients and doctors are unchanged; nothing about the two objects is checked |
| Servicio.ClinicaService.ObtenerCitas | clinica4/Program.cs:77-80 | yields the registry's own appointment list, in scheduling order |
| Flujos.LeerRegistroPaciente | clinica4/Program.cs:129-140 | the flow registers a patient iff an age line that parses and a phone line follow the name; the patient gets the name, age and phone text exactly as read; otherwise it fails |
| Flujos.LeerRegistroDoctor | clinica4/Program.cs:142-151 | the flow registers a doctor with the name and specialty exactly as read iff both lines are there |
| Flujos.LeerCita | clinica4/Program.cs:153-189 | with no patients it only reports "no patients", else with no doctors only "no doctors", reading no line in either case, and a notice happens iff a list is empty; it schedules iff both selections parse, 1 <= p <= patient count, 1 <= d <= doctor count and the date parses, and then uses indices p-1 and d-1; with both lists non-empty every other input is a failure that ends the run: an unparsable patient number is a format failure, and parsed, dated selections outside the lists are an index failure |
| Flujos.Despacho | clinica4/Program.cs:103-123 | choice 5 and only 5 exits; 1, 2 and 3 run exactly the patient, doctor and scheduling flows, and only they can register or schedule; 4 lists without reading; any other integer is reported invalid and reads nothing more |
| Flujos.LeerPaso | clinica4/Program.cs:100-123 | the step exits normally iff the choice line parses to 5; a missing choice line or one that does not parse is a failure that ends the run; a parsed choice runs what Despacho gives for it; any integer outside 1 to 5 reports an invalid option and consumes just that line; a scheduling effect always names existing list positions; every continuing step consumes input |
| Flujos.Aplicado | clinica4/Program.cs:35-75 | how each effect changes the registry: a registration or scheduling appends exactly one entry with the read values (an appointment referring to the selected list entries) and leaves the other lists alone; every other effect changes nothing; in every case each list keeps its old entries as a prefix and at most one entry is added in all |
| Flujos.AplicadoConsistente | clinica4/Program.cs:153-189 | every effect of a menu iteration keeps each appointment's patient and doctor inside the lists |
| Flujos.AplicadoCuenta | clinica4/Program.cs:35-75 | each registration or scheduling adds one to exactly one count; every other effect leaves the counts alone |
| Flujos.CorridaCrece | clinica4/Program.cs:88-127 | a run ends with no count below its starting value |
| Flujos.CitasRequierenPacienteYDoctor | clinica4/Program.cs:158-168 | a run that schedules any appointment ends with at least one patient and one doctor registered |
| Flujos.OpcionesNoValidasNoCambianNada | clinica4/Program.cs:120-122 | a run fed only menu choices outside 1 to 5 changes no list and ends only when the input does |
| Flujos.Corrida | clinica4/Program.cs:88-127 | the whole do-while menu run over a script, step by step until exit or failure; a run that exits normally has read a 5 somewhere in the script |
| Flujos.Traza | clinica4/Program.cs:88-127 | the effects a whole menu run applies, in order: one per iteration that neither exits nor fails, so never more than the script has lines left |
| Flujos.Refleja | clinica4/Program.cs:35-75 | the registry after a sequence of effects, against the one before: each list grows by the entries its effects register, appended in order with the values read, and each new appointment joins the patient and doctor at the positions its effect selected; the lists grow by at most one entry per effect |
| Flujos.ReflejaPaso | clinica4/Program.cs:103-123 | applying one more iteration's effect extends what the effects so far reflect |
| Flujos.TrazaPaso | clinica4/Program.cs:91-126 | each iteration either adds its effect to those already applied or ends the run with them |
| Interfaz.SalidaDeAgenda | clinica4/Program.cs:153-188 | what scheduling writes: "no patients" or "no doctors" alone when a list is empty; otherwise the numbered patients, then the numbered doctors once the patient's number has parsed, then the confirmation only when booked; with both lists non-empty the patients are always listed |
| Interfaz.AgendaConfirmada | clinica4/Program.cs:170-188 | the scheduling output holds the confirmation iff the appointment was booked with both lists non-empty; a failed attempt never confirms |
| Interfaz.MensajesDeOpcion | clinica4/Program.cs:103-123 | what an iteration writes for a parsed choice: the confirmation of a registration exactly when it does not fail, the scheduling output SalidaDeAgenda gives, the listing EsListadoDeCitas gives, the farewell for 5 and the invalid-option notice for any other integer |
| Interfaz.DespedidaSoloAlSalir | clinica4/Program.cs:117-122 | an iteration writes the farewell iff its choice is 5 |
| Interfaz.EsListadoDeCitas | clinica4/Program.cs:191-205 | the appointment listing: only the "no appointments" notice when the list is empty, otherwise one line per appointment in list order; the notice appears iff there is no appointment |
| Interfaz.ListarPacientes | clinica4/Program.cs:170-174 | one entry per patient, numbered from 1, in list order, with the patient's name |
| Interfaz.ListarDoctores | clinica4/Program.cs:177-181 | one entry per doctor, numbered from 1, in list order, with name and specialty |
| Interfaz.ClinicaUI.constructor | clinica4/Program.cs:86 | the interface owns a fresh, empty registry |
| Interfaz.ClinicaUI.MostrarMenu | clinica4/Program.cs:88-127 | the loop keeps the registry consistent, never removes anything, ends with the counts and the outcome (exit on choice 5, a failed read or parse, or an out-of-range selection when scheduling) that Corrida gives for the script, and the entries it appended are, in order and with their values and selected references, those registered by the effects Traza gives |
| Interfaz.ClinicaUI.Iterar | clinica4/Program.cs:100-123 | one iteration: reads the choice and takes exactly the step LeerPaso gives, changing the registry as its effect says; it says whether the loop exits, and a continuing iteration consumes input; it writes nothing when the choice line is missing or does not parse, and otherwise the messages MensajesDeOpcion gives for the choice |
| Interfaz.ClinicaUI.EjecutarOpcion | clinica4/Program.cs:103-123 | runs exactly the flow Despacho names for the choice and changes the registry as that effect says; it writes the messages MensajesDeOpcion gives: the patient or doctor confirmation, the scheduling output SalidaDeAgenda describes, never with the confirmation when scheduling fails, the full appointment listing for 4; choice 5 writes the farewell and any other integer outside 1 to 5 writes the invalid-option notice, changing nothing |
| Interfaz.ClinicaUI.RegistrarPaciente | clinica4/Program.cs:129-140 | reads as LeerRegistroPaciente says and appends exactly the fresh patient it describes, reporting success, or fails changing nothing |
| Interfaz.ClinicaUI.RegistrarDoctor | clinica4/Program.cs:142-151 | reads as LeerRegistroDoctor says and appends exactly the fresh doctor it describes, reporting success, or fails changing nothing |
| Interfaz.ClinicaUI.AgendarCita | clinica4/Program.cs:153-189 | aborts with the "no patients" or "no doctors" notice and no change; otherwise writes the numbered patients, then the numbered doctors once the patient's number has parsed, and either appends one fresh appointment referring to the selected list entries and confirms, or fails (bad number, bad date, out-of-range selection) changing nothing, with the output SalidaDeAgenda gives for how far it got |
| Interfaz.ClinicaUI.MostrarCitas | clinica4/Program.cs:191-205 | writes the listing EsListadoDeCitas describes: a single "no appointments" notice when the list is empty, otherwise one line per appointment in list order with the patient's name, the doctor's name and specialty, and the date |
| Interfaz.EscenarioAnaLopez | clinica4/Program.cs:201-204 | registering "Ana" and "Dr. Lopez" (Cardiologia), scheduling them, then listing yields one line with exactly those texts and the date |

## Left out

- Console output that never varies is not modelled: the menu text, the prompts, `Console.Clear` and the "press any key" pause; `Console.ReadKey` consumes nothing from the line script.
- `int.Parse` and `DateTime.Parse` are not modelled; each input line carries their result, and the model does not restrict a parsed integer to 32 bits. A selection of `int.MinValue` makes `seleccion - 1` wrap around in the source, but the index is out of range either way, so the outcome is the same.
- `DateTime.ToShortDateString` and the interpolated text of each listing line are culture-dependent; a listing line carries the date value and the three texts instead.
- `Program.Main` (clinica4/Program.cs:209-216) only builds the interface and calls the menu; it is not a separate member here.
- The records' properties are settable in the source, but nothing sets them after construction, so they are constant fields here.
- The `Obtener*` getters return the live `List` in the source; here they return the sequence value. No caller changes the returned list, so the aliasing is not modelled.
- Flujos.LeerRegistroPaciente: when the input ends right after a valid age, the source registers the patient with a null phone, reports success and then fails at the next menu read; the model fails at once without registering. The run ends in the same failure; only the registry at the moment of the crash differs, and the process discards it.
- Flujos.LeerRegistroDoctor: likewise, when the input ends before the specialty, the source registers a doctor with null text and fails at the next menu read; the model fails at once.
- Interfaz.ClinicaUI.RegistrarPaciente: follows Flujos.LeerRegistroPaciente on an input that ends early, as above.
- Interfaz.ClinicaUI.RegistrarDoctor: follows Flujos.LeerRegistroDoctor on an input that ends early, as above.
- Interfaz.ClinicaUI.MostrarMenu: its contract states the final registry, the invariant and the outcome, not the concatenated messages; EjecutarOpcion's contract states the messages of each iteration.
- A crash in the source (an unhandled exception) ends the process; here it is the run's outcome `Fallo`, with the kind of failure.
