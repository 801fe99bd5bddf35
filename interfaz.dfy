/** The console user interface: the menu loop and the four flows it runs,
    reading a scripted input instead of the keyboard and returning the
    messages it writes instead of printing them. */
module Interfaz {
  import opened Modelo
  import opened Consola
  import opened Servicio
  import opened Flujos

  /** How a flow's own outcome matches the effect its specification
      function gives: a failure stops the run, otherwise reading resumes at
      the line after the flow's last one. */
  predicate Concuerda(p: Paso, siguiente: nat, falla: Option<Falla>)
  {
    if p.efecto.Falla? then falla == Some(p.efecto.falla)
    else falla == None && siguiente == p.siguiente
  }

  /** The appointment listing: a single notice when there is no
      appointment, otherwise one line per appointment, in scheduling order,
      with the patient's name and the doctor's name and specialty as
      registered, and the date. */
  predicate EsListadoDeCitas(salida: seq<Mensaje>, citas: seq<Cita>)
    ensures EsListadoDeCitas(salida, citas) ==> (NoHayCitas in salida <==> citas == [])
  {
    if citas == [] then salida == [NoHayCitas]
    else |salida| == |citas| &&
         forall i :: 0 <= i < |citas| ==>
           salida[i] == LineaCita(citas[i].paciente.nombre, citas[i].doctor.nombre,
                                  citas[i].doctor.especialidad, citas[i].fecha)
  }

  /** What scheduling writes. With no patient, or no doctor, a single
      notice. Otherwise the numbered patients; then, once the patient's
      number has been read and parsed, the numbered doctors; then, only when
      the appointment was booked, the confirmation. */
  predicate SalidaDeAgenda(salida: seq<Mensaje>, pacientes: seq<Paciente>, doctores: seq<Doctor>,
                           entrada: seq<Linea>, pos: nat, agendada: bool)
    ensures SalidaDeAgenda(salida, pacientes, doctores, entrada, pos, agendada) && pacientes != [] && doctores != [] ==>
              |pacientes| <= |salida|
  {
    if pacientes == [] then salida == [NoHayPacientes]
    else if doctores == [] then salida == [NoHayDoctores]
    else
      var conDoctores := pos < |entrada| && entrada[pos].entero.Some?;
      |salida| == |pacientes| + (if conDoctores then |doctores| else 0) + (if agendada then 1 else 0) &&
      (forall i :: 0 <= i < |pacientes| ==> salida[i] == OpcionPaciente(i + 1, pacientes[i].nombre)) &&
      (conDoctores ==>
         forall k :: |pacientes| <= k < |pacientes| + |doctores| ==>
           salida[k] == OpcionDoctor(k - |pacientes| + 1, doctores[k - |pacientes|].nombre,
                                     doctores[k - |pacientes|].especialidad)) &&
      (agendada ==> salida[|salida| - 1] == CitaAgendada)
  }

  /** Scheduling confirms exactly when an appointment was booked: a failed
      attempt writes the lists it got to, but never the confirmation. */
  lemma {:induction false} AgendaConfirmada(salida: seq<Mensaje>, pacientes: seq<Paciente>, doctores: seq<Doctor>,
                                            entrada: seq<Linea>, pos: nat, agendada: bool)
    requires SalidaDeAgenda(salida, pacientes, doctores, entrada, pos, agendada)
    ensures CitaAgendada in salida <==> agendada && pacientes != [] && doctores != []
  {
    if pacientes != [] && doctores != [] && CitaAgendada in salida {
      var k :| 0 <= k < |salida| && salida[k] == CitaAgendada;
    }
  }

  /** What one menu iteration writes for a parsed choice: the registration
      confirmation when it succeeds, the scheduling output, the appointment
      listing, the farewell for 5 and the invalid-option notice for any
      other integer. */
  predicate MensajesDeOpcion(opcion: int, salida: seq<Mensaje>,
                             pacientes: seq<Paciente>, doctores: seq<Doctor>, citas: seq<Cita>,
                             entrada: seq<Linea>, pos: nat, fallo: bool)
    ensures (opcion == 1 || opcion == 2) &&
            MensajesDeOpcion(opcion, salida, pacientes, doctores, citas, entrada, pos, fallo) ==>
              (salida == [] <==> fallo)
  {
    if opcion == 1 then salida == if fallo then [] else [PacienteRegistrado]
    else if opcion == 2 then salida == if fallo then [] else [DoctorRegistrado]
    else if opcion == 3 then SalidaDeAgenda(salida, pacientes, doctores, entrada, pos, !fallo)
    else if opcion == 4 then EsListadoDeCitas(salida, citas)
    else if opcion == 5 then salida == [Saliendo]
    else salida == [OpcionNoValida]
  }

  /** The farewell is written by choice 5 and by no other choice. */
  lemma {:induction false} DespedidaSoloAlSalir(opcion: int, salida: seq<Mensaje>,
                                                pacientes: seq<Paciente>, doctores: seq<Doctor>, citas: seq<Cita>,
                                                entrada: seq<Linea>, pos: nat, fallo: bool)
    requires MensajesDeOpcion(opcion, salida, pacientes, doctores, citas, entrada, pos, fallo)
    ensures Saliendo in salida <==> opcion == 5
  {
    if opcion == 3 && pacientes != [] && doctores != [] && Saliendo in salida {
      var k :| 0 <= k < |salida| && salida[k] == Saliendo;
    }
  }

  /** The numbered patient list shown when scheduling: one entry per
      patient, numbered from 1, in registration order. */
  method ListarPacientes(pacientes: seq<Paciente>) returns (salida: seq<Mensaje>)
    ensures |salida| == |pacientes|
    ensures forall i :: 0 <= i < |pacientes| ==> salida[i] == OpcionPaciente(i + 1, pacientes[i].nombre)
  {
    salida := [];
    for i := 0 to |pacientes|
      invariant |salida| == i
      invariant forall k :: 0 <= k < i ==> salida[k] == OpcionPaciente(k + 1, pacientes[k].nombre)
    {
      salida := salida + [OpcionPaciente(i + 1, pacientes[i].nombre)];
    }
  }

  /** The numbered doctor list shown when scheduling, with each doctor's
      specialty. */
  method ListarDoctores(doctores: seq<Doctor>) returns (salida: seq<Mensaje>)
    ensures |salida| == |doctores|
    ensures forall i :: 0 <= i < |doctores| ==>
              salida[i] == OpcionDoctor(i + 1, doctores[i].nombre, doctores[i].especialidad)
  {
    salida := [];
    for i := 0 to |doctores|
      invariant |salida| == i
      invariant forall k :: 0 <= k < i ==>
                  salida[k] == OpcionDoctor(k + 1, doctores[k].nombre, doctores[k].especialidad)
    {
      salida := salida + [OpcionDoctor(i + 1, doctores[i].nombre, doctores[i].especialidad)];
    }
  }

  class ClinicaUI {
    const clinicaService: ClinicaService

    ghost predicate Valid()
      reads this, clinicaService
    {
      Consistente(clinicaService.pacientes, clinicaService.doctores, clinicaService.citas)
    }

    constructor ()
      ensures Valid() && fresh(clinicaService)
      ensures clinicaService.pacientes == [] && clinicaService.doctores == [] && clinicaService.citas == []
    {
      clinicaService := new ClinicaService();
    }

    /** The menu loop. It reads a choice per iteration and runs the flow it
        selects, until choice 5, until a read or a parse fails, or until an
        appointment names a patient or a doctor out of range. The registry
        stays consistent, nothing is removed from it, its final counts and
        the way the run ends are those of Corrida, and the entries appended
        to it are those the effects of Traza register, in order. */
    method MostrarMenu(entrada: seq<Linea>) returns (desenlace: Desenlace, salida: seq<Mensaje>)
      requires Valid()
      modifies clinicaService
      ensures Valid()
      ensures old(clinicaService.pacientes) <= clinicaService.pacientes
      ensures old(clinicaService.doctores) <= clinicaService.doctores
      ensures old(clinicaService.citas) <= clinicaService.citas
      ensures (clinicaService.Cuenta(), desenlace) == Corrida(old(clinicaService.Cuenta()), entrada, 0)
      ensures Refleja(Traza(old(clinicaService.Cuenta()), entrada, 0),
                      old(clinicaService.pacientes), old(clinicaService.doctores), old(clinicaService.citas),
                      clinicaService.pacientes, clinicaService.doctores, clinicaService.citas)
    {
      salida := [];
      var pos: nat := 0;
      var sale := false;
      ghost var hecho: seq<Efecto> := [];
      while !sale
        invariant pos <= |entrada|
        invariant Valid()
        invariant old(clinicaService.pacientes) <= clinicaService.pacientes
        invariant old(clinicaService.doctores) <= clinicaService.doctores
        invariant old(clinicaService.citas) <= clinicaService.citas
        invariant Refleja(hecho, old(clinicaService.pacientes), old(clinicaService.doctores), old(clinicaService.citas),
                          clinicaService.pacientes, clinicaService.doctores, clinicaService.citas)
        invariant !sale ==>
                    Corrida(old(clinicaService.Cuenta()), entrada, 0) == Corrida(clinicaService.Cuenta(), entrada, pos) &&
                    Traza(old(clinicaService.Cuenta()), entrada, 0) == hecho + Traza(clinicaService.Cuenta(), entrada, pos)
        invariant sale ==>
                    Corrida(old(clinicaService.Cuenta()), entrada, 0) == (clinicaService.Cuenta(), Salio) &&
                    Traza(old(clinicaService.Cuenta()), entrada, 0) == hecho
        decreases |entrada| - pos
      {
        ghost var pacientes0, doctores0, citas0 := clinicaService.pacientes, clinicaService.doctores, clinicaService.citas;
        ghost var p := LeerPaso(|pacientes0|, |doctores0|, entrada, pos);
        CorridaDespliega(clinicaService.Cuenta(), entrada, pos);
        TrazaPaso(old(clinicaService.Cuenta()), hecho, clinicaService.Cuenta(), entrada, pos);
        var siguiente, falla, mensajes;
        siguiente, falla, sale, mensajes := Iterar(entrada, pos);
        salida := salida + mensajes;
        if falla.Some? {
          desenlace := Fallo(falla.value);
          return;
        }
        pos := siguiente;
        AplicadoConsistente(p.efecto, pacientes0, doctores0, citas0,
                            clinicaService.pacientes, clinicaService.doctores, clinicaService.citas);
        AplicadoCuenta(p.efecto, pacientes0, doctores0, citas0,
                       clinicaService.pacientes, clinicaService.doctores, clinicaService.citas);
        if !sale {
          ReflejaPaso(hecho, p.efecto, old(clinicaService.pacientes), old(clinicaService.doctores), old(clinicaService.citas),
                      pacientes0, doctores0, citas0,
                      clinicaService.pacientes, clinicaService.doctores, clinicaService.citas);
          hecho := hecho + [p.efecto];
        }
      }
      desenlace := Salio;
    }

    /** One iteration of the menu loop: read the choice and run what it
        selects. The step taken is the one LeerPaso describes. */
    method Iterar(entrada: seq<Linea>, pos: nat) returns (siguiente: nat, falla: Option<Falla>, sale: bool, salida: seq<Mensaje>)
      requires pos <= |entrada|
      modifies clinicaService
      ensures Concuerda(LeerPaso(|old(clinicaService.pacientes)|, |old(clinicaService.doctores)|, entrada, pos), siguiente, falla)
      ensures Aplicado(LeerPaso(|old(clinicaService.pacientes)|, |old(clinicaService.doctores)|, entrada, pos).efecto,
                       old(clinicaService.pacientes), old(clinicaService.doctores), old(clinicaService.citas),
                       clinicaService.pacientes, clinicaService.doctores, clinicaService.citas)
      ensures sale <==> LeerPaso(|old(clinicaService.pacientes)|, |old(clinicaService.doctores)|, entrada, pos).efecto == Sale
      ensures falla == None ==> pos < siguiente <= |entrada|
      ensures pos == |entrada| || entrada[pos].entero.None? ==> salida == []
      ensures pos < |entrada| && entrada[pos].entero.Some? ==>
                MensajesDeOpcion(entrada[pos].entero.value, salida, old(clinicaService.pacientes), old(clinicaService.doctores),
                                 clinicaService.citas, entrada, pos + 1, falla.Some?)
    {
      ghost var p := LeerPaso(|clinicaService.pacientes|, |clinicaService.doctores|, entrada, pos);
      siguiente, falla, sale, salida := pos, None, false, [];
      if pos == |entrada| {
        falla := Some(FinDeEntrada);
      } else if entrada[pos].entero.None? {
        falla := Some(FormatoInvalido);
      } else {
        var opcion := entrada[pos].entero.value;
        assert p == Despacho(|clinicaService.pacientes|, |clinicaService.doctores|, opcion, entrada, pos + 1);
        siguiente, falla, salida := EjecutarOpcion(opcion, entrada, pos + 1);
        sale := opcion == 5;
      }
    }

    /** The switch of the menu loop on a parsed choice. */
    method EjecutarOpcion(opcion: int, entrada: seq<Linea>, pos: nat) returns (siguiente: nat, falla: Option<Falla>, salida: seq<Mensaje>)
      requires pos <= |entrada|
      modifies clinicaService
      ensures Concuerda(Despacho(|old(clinicaService.pacientes)|, |old(clinicaService.doctores)|, opcion, entrada, pos), siguiente, falla)
      ensures Aplicado(Despacho(|old(clinicaService.pacientes)|, |old(clinicaService.doctores)|, opcion, entrada, pos).efecto,
                       old(clinicaService.pacientes), old(clinicaService.doctores), old(clinicaService.citas),
                       clinicaService.pacientes, clinicaService.doctores, clinicaService.citas)
      ensures MensajesDeOpcion(opcion, salida, old(clinicaService.pacientes), old(clinicaService.doctores),
                               clinicaService.citas, entrada, pos, falla.Some?)
      ensures opcion == 3 && falla.Some? ==> CitaAgendada !in salida
      ensures opcion == 3 && falla == None && old(clinicaService.pacientes) != [] && old(clinicaService.doctores) != [] ==>
                fresh(clinicaService.citas[|clinicaService.citas| - 1])
    {
      siguiente, falla, salida := pos, None, [];
      if opcion == 1 {
        siguiente, falla, salida := RegistrarPaciente(entrada, pos);
      } else if opcion == 2 {
        siguiente, falla, salida := RegistrarDoctor(entrada, pos);
      } else if opcion == 3 {
        siguiente, falla, salida := AgendarCita(entrada, pos);
        AgendaConfirmada(salida, clinicaService.pacientes, clinicaService.doctores, entrada, pos, falla == None);
      } else if opcion == 4 {
        salida := MostrarCitas();
      } else if opcion == 5 {
        salida := [Saliendo];
      } else {
        salida := [OpcionNoValida];
      }
    }

    /** The patient registration flow: name, age and phone are read, and the
        patient is registered with exactly those values, unchecked. */
    method RegistrarPaciente(entrada: seq<Linea>, pos: nat) returns (siguiente: nat, falla: Option<Falla>, salida: seq<Mensaje>)
      requires pos <= |entrada|
      modifies clinicaService
      ensures Concuerda(LeerRegistroPaciente(entrada, pos), siguiente, falla)
      ensures Aplicado(LeerRegistroPaciente(entrada, pos).efecto,
                       old(clinicaService.pacientes), old(clinicaService.doctores), old(clinicaService.citas),
                       clinicaService.pacientes, clinicaService.doctores, clinicaService.citas)
      ensures falla == None ==> fresh(clinicaService.pacientes[|clinicaService.pacientes| - 1])
      ensures salida == if falla == None then [PacienteRegistrado] else []
    {
      siguiente, falla, salida := pos, None, [];
      if pos + 1 >= |entrada| {
        falla := Some(FinDeEntrada);
        return;
      }
      var nombre := entrada[pos].texto;
      if entrada[pos + 1].entero.None? {
        falla := Some(FormatoInvalido);
        return;
      }
      var edad := entrada[pos + 1].entero.value;
      if pos + 2 >= |entrada| {
        falla := Some(FinDeEntrada);
        return;
      }
      var telefono := entrada[pos + 2].texto;
      clinicaService.RegistrarPaciente(nombre, edad, telefono);
      siguiente := pos + 3;
      salida := [PacienteRegistrado];
    }

    /** The doctor registration flow: name and specialty are read, and the
        doctor is registered with exactly those values. */
    method RegistrarDoctor(entrada: seq<Linea>, pos: nat) returns (siguiente: nat, falla: Option<Falla>, salida: seq<Mensaje>)
      requires pos <= |entrada|
      modifies clinicaService
      ensures Concuerda(LeerRegistroDoctor(entrada, pos), siguiente, falla)
      ensures Aplicado(LeerRegistroDoctor(entrada, pos).efecto,
                       old(clinicaService.pacientes), old(clinicaService.doctores), old(clinicaService.citas),
                       clinicaService.pacientes, clinicaService.doctores, clinicaService.citas)
      ensures falla == None ==> fresh(clinicaService.doctores[|clinicaService.doctores| - 1])
      ensures salida == if falla == None then [DoctorRegistrado] else []
    {
      siguiente, falla, salida := pos, None, [];
      if pos + 1 >= |entrada| {
        falla := Some(FinDeEntrada);
        return;
      }
      var nombre := entrada[pos].texto;
      var especialidad := entrada[pos + 1].texto;
      clinicaService.RegistrarDoctor(nombre, especialidad);
      siguiente := pos + 2;
      salida := [DoctorRegistrado];
    }

    /** The scheduling flow. It stops, writing one notice and reading
        nothing, when there is no patient or else no doctor. Otherwise it
        shows both numbered lists, reads the two 1-based selections and the
        date, and schedules the selected patient with the selected doctor;
        a selection outside its list is a failure, not clamped. */
    method AgendarCita(entrada: seq<Linea>, pos: nat) returns (siguiente: nat, falla: Option<Falla>, salida: seq<Mensaje>)
      requires pos <= |entrada|
      modifies clinicaService
      ensures Concuerda(LeerCita(|old(clinicaService.pacientes)|, |old(clinicaService.doctores)|, entrada, pos), siguiente, falla)
      ensures Aplicado(LeerCita(|old(clinicaService.pacientes)|, |old(clinicaService.doctores)|, entrada, pos).efecto,
                       old(clinicaService.pacientes), old(clinicaService.doctores), old(clinicaService.citas),
                       clinicaService.pacientes, clinicaService.doctores, clinicaService.citas)
      ensures SalidaDeAgenda(salida, old(clinicaService.pacientes), old(clinicaService.doctores), entrada, pos, falla == None)
      ensures LeerCita(|old(clinicaService.pacientes)|, |old(clinicaService.doctores)|, entrada, pos).efecto.AgendaCita? ==>
                fresh(clinicaService.citas[|clinicaService.citas| - 1])
    {
      siguiente, falla, salida := pos, None, [];
      var pacientes := clinicaService.ObtenerPacientes();
      var doctores := clinicaService.ObtenerDoctores();
      ghost var p := LeerCita(|pacientes|, |doctores|, entrada, pos);
      if |pacientes| == 0 {
        salida := [NoHayPacientes];
      } else if |doctores| == 0 {
        salida := [NoHayDoctores];
      } else {
        salida := ListarPacientes(pacientes);
        if pos >= |entrada| {
          falla := Some(FinDeEntrada);
        } else if entrada[pos].entero.None? {
          falla := Some(FormatoInvalido);
        } else {
          var seleccionPaciente := entrada[pos].entero.value - 1;
          var opcionesDoctores := ListarDoctores(doctores);
          salida := salida + opcionesDoctores;
          if pos + 1 >= |entrada| {
            falla := Some(FinDeEntrada);
          } else if entrada[pos + 1].entero.None? {
            falla := Some(FormatoInvalido);
          } else {
            var seleccionDoctor := entrada[pos + 1].entero.value - 1;
            if pos + 2 >= |entrada| {
              falla := Some(FinDeEntrada);
            } else if entrada[pos + 2].fecha.None? {
              falla := Some(FormatoInvalido);
            } else {
              var fecha := entrada[pos + 2].fecha.value;
              if !(0 <= seleccionPaciente < |pacientes|) || !(0 <= seleccionDoctor < |doctores|) {
                falla := Some(IndiceFueraDeRango);
              } else {
                assert p == Paso(AgendaCita(seleccionPaciente, seleccionDoctor, fecha), pos + 3);
                clinicaService.AgendarCita(pacientes[seleccionPaciente], doctores[seleccionDoctor], fecha);
                siguiente := pos + 3;
                salida := salida + [CitaAgendada];
              }
            }
          }
        }
        assert falla.Some? ==> p.efecto == Falla(falla.value);
      }
    }

    /** The appointment listing, as EsListadoDeCitas describes it. */
    method MostrarCitas() returns (salida: seq<Mensaje>)
      ensures EsListadoDeCitas(salida, clinicaService.citas)
    {
      var citas := clinicaService.ObtenerCitas();
      if |citas| == 0 {
        return [NoHayCitas];
      }
      salida := [];
      for i := 0 to |citas|
        invariant |salida| == i
        invariant forall k :: 0 <= k < i ==>
                    salida[k] == LineaCita(citas[k].paciente.nombre, citas[k].doctor.nombre,
                                           citas[k].doctor.especialidad, citas[k].fecha)
      {
        var cita := citas[i];
        salida := salida + [LineaCita(cita.paciente.nombre, cita.doctor.nombre, cita.doctor.especialidad, cita.fecha)];
      }
    }
  }

  /** A line of raw text, which parses neither as a number nor as a date. */
  function Texto(s: string): Linea
  {
    Linea(s, None, None)
  }

  /** A line holding a number. */
  function Numero(n: int): Linea
  {
    Linea("", Some(n), None)
  }

  /** Register a patient, then a doctor, schedule an appointment for the two
      through the interface, and list the appointments: the one line shown
      carries the names and the specialty exactly as they were typed. */
  method EscenarioAnaLopez() returns (salida: seq<Mensaje>)
    ensures salida == [LineaCita("Ana", "Dr. Lopez", "Cardiologia", Fecha(10, 5, 2024))]
  {
    var ui := new ClinicaUI();
    var siguiente, falla, mensajes;
    siguiente, falla, mensajes := ui.RegistrarPaciente([Texto("Ana"), Numero(30), Texto("555-0101")], 0);
    siguiente, falla, mensajes := ui.RegistrarDoctor([Texto("Dr. Lopez"), Texto("Cardiologia")], 0);
    var fecha := Linea("10/05/2024", None, Some(Fecha(10, 5, 2024)));
    siguiente, falla, mensajes := ui.AgendarCita([Numero(1), Numero(1), fecha], 0);
    salida := ui.MostrarCitas();
  }
}
