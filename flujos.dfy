/** What one iteration of the menu does, as a function of the number of
    patients and doctors registered and of the input script: which line it
    reads, and which effect on the registry follows. The imperative flows
    of the user interface are proved to behave as these functions say. */
module Flujos {
  import opened Modelo
  import opened Consola
  import opened Servicio

  datatype Efecto =
    | RegistraPaciente(nombre: string, edad: int, telefono: string)
    | RegistraDoctor(nombre: string, especialidad: string)
    | AgendaCita(paciente: nat, doctor: nat, fecha: Fecha)
    | MuestraCitas
    | Avisa(aviso: Mensaje)
    | Sale
    | Falla(falla: Falla)

  /** An effect and the position of the next unread input line. */
  datatype Paso = Paso(efecto: Efecto, siguiente: nat)

  /** Whether the menu loop goes round again after this effect. */
  predicate Continua(e: Efecto)
  {
    !e.Sale? && !e.Falla?
  }

  /** The patient registration flow, from the line after the menu choice:
      a raw name, an age parsed as an integer, a raw phone number. */
  function LeerRegistroPaciente(entrada: seq<Linea>, pos: nat): (p: Paso)
    requires pos <= |entrada|
    ensures p.efecto.RegistraPaciente? || p.efecto.Falla?
    ensures p.efecto.RegistraPaciente? <==>
              pos + 2 < |entrada| && entrada[pos + 1].entero.Some?
    ensures p.efecto.RegistraPaciente? ==>
              p.siguiente == pos + 3 &&
              p.efecto == RegistraPaciente(entrada[pos].texto, entrada[pos + 1].entero.value, entrada[pos + 2].texto)
  {
    if pos + 1 >= |entrada| then Paso(Falla(FinDeEntrada), |entrada|)
    else match entrada[pos + 1].entero
      case None => Paso(Falla(FormatoInvalido), pos + 2)
      case Some(edad) =>
        if pos + 2 >= |entrada| then Paso(Falla(FinDeEntrada), |entrada|)
        else Paso(RegistraPaciente(entrada[pos].texto, edad, entrada[pos + 2].texto), pos + 3)
  }

  /** The doctor registration flow: a raw name and a raw specialty. */
  function LeerRegistroDoctor(entrada: seq<Linea>, pos: nat): (p: Paso)
    requires pos <= |entrada|
    ensures p.efecto.RegistraDoctor? || p.efecto == Falla(FinDeEntrada)
    ensures p.efecto.RegistraDoctor? <==> pos + 1 < |entrada|
    ensures p.efecto.RegistraDoctor? ==>
              p.siguiente == pos + 2 &&
              p.efecto == RegistraDoctor(entrada[pos].texto, entrada[pos + 1].texto)
  {
    if pos + 1 >= |entrada| then Paso(Falla(FinDeEntrada), |entrada|)
    else Paso(RegistraDoctor(entrada[pos].texto, entrada[pos + 1].texto), pos + 2)
  }

  /** The scheduling flow. With no patients, or else with no doctors, it
      stops before reading anything. Otherwise it reads a 1-based patient
      number, a 1-based doctor number and a date, and only then indexes the
      two lists, which fails when a number is out of range. */
  function LeerCita(nPacientes: nat, nDoctores: nat, entrada: seq<Linea>, pos: nat): (p: Paso)
    requires pos <= |entrada|
    ensures nPacientes == 0 ==> p == Paso(Avisa(NoHayPacientes), pos)
    ensures nPacientes > 0 && nDoctores == 0 ==> p == Paso(Avisa(NoHayDoctores), pos)
    ensures p.efecto.AgendaCita? || p.efecto.Falla? || p.efecto.Avisa?
    ensures p.efecto.AgendaCita? <==>
              nPacientes > 0 && nDoctores > 0 && pos + 2 < |entrada| &&
              entrada[pos].entero.Some? && 1 <= entrada[pos].entero.value <= nPacientes &&
              entrada[pos + 1].entero.Some? && 1 <= entrada[pos + 1].entero.value <= nDoctores &&
              entrada[pos + 2].fecha.Some?
    ensures p.efecto.AgendaCita? ==>
              p.siguiente == pos + 3 &&
              p.efecto.paciente == entrada[pos].entero.value - 1 < nPacientes &&
              p.efecto.doctor == entrada[pos + 1].entero.value - 1 < nDoctores &&
              p.efecto.fecha == entrada[pos + 2].fecha.value
    ensures p.efecto.Avisa? <==> nPacientes == 0 || nDoctores == 0
    ensures p.efecto.Falla? <==> nPacientes > 0 && nDoctores > 0 && !p.efecto.AgendaCita?
    ensures nPacientes > 0 && nDoctores > 0 && pos < |entrada| && entrada[pos].entero.None? ==>
              p.efecto == Falla(FormatoInvalido)
    ensures nPacientes > 0 && nDoctores > 0 && pos + 2 < |entrada| &&
            entrada[pos].entero.Some? && entrada[pos + 1].entero.Some? && entrada[pos + 2].fecha.Some? &&
            (!(1 <= entrada[pos].entero.value <= nPacientes) || !(1 <= entrada[pos + 1].entero.value <= nDoctores)) ==>
              p.efecto == Falla(IndiceFueraDeRango)
  {
    if nPacientes == 0 then Paso(Avisa(NoHayPacientes), pos)
    else if nDoctores == 0 then Paso(Avisa(NoHayDoctores), pos)
    else if pos >= |entrada| then Paso(Falla(FinDeEntrada), pos)
    else match entrada[pos].entero
      case None => Paso(Falla(FormatoInvalido), pos + 1)
      case Some(seleccionPaciente) =>
        if pos + 1 >= |entrada| then Paso(Falla(FinDeEntrada), |entrada|)
        else match entrada[pos + 1].entero
          case None => Paso(Falla(FormatoInvalido), pos + 2)
          case Some(seleccionDoctor) =>
            if pos + 2 >= |entrada| then Paso(Falla(FinDeEntrada), |entrada|)
            else match entrada[pos + 2].fecha
              case None => Paso(Falla(FormatoInvalido), pos + 3)
              case Some(fecha) =>
                var i, j := seleccionPaciente - 1, seleccionDoctor - 1;
                if !(0 <= i < nPacientes) || !(0 <= j < nDoctores) then Paso(Falla(IndiceFueraDeRango), pos + 3)
                else Paso(AgendaCita(i, j, fecha), pos + 3)
  }

  /** The switch on a parsed menu choice: choices 1 to 4 run one flow each,
      from the line after the choice; 5 exits; any other integer is
      reported as invalid. */
  function Despacho(nPacientes: nat, nDoctores: nat, opcion: int, entrada: seq<Linea>, pos: nat): (p: Paso)
    requires pos <= |entrada|
    ensures Continua(p.efecto) ==> pos <= p.siguiente <= |entrada|
    ensures p.efecto == Sale <==> opcion == 5
    ensures !(1 <= opcion <= 5) ==> p == Paso(Avisa(OpcionNoValida), pos)
    ensures opcion == 4 ==> p == Paso(MuestraCitas, pos)
    ensures p.efecto.AgendaCita? ==> opcion == 3 && p.efecto.paciente < nPacientes && p.efecto.doctor < nDoctores
    ensures p.efecto.RegistraPaciente? ==> opcion == 1
    ensures p.efecto.RegistraDoctor? ==> opcion == 2
    ensures p.efecto.Avisa? ==> p.siguiente == pos
    ensures opcion == 1 ==> p == LeerRegistroPaciente(entrada, pos)
    ensures opcion == 2 ==> p == LeerRegistroDoctor(entrada, pos)
    ensures opcion == 3 ==> p == LeerCita(nPacientes, nDoctores, entrada, pos)
  {
    if opcion == 1 then LeerRegistroPaciente(entrada, pos)
    else if opcion == 2 then LeerRegistroDoctor(entrada, pos)
    else if opcion == 3 then LeerCita(nPacientes, nDoctores, entrada, pos)
    else if opcion == 4 then Paso(MuestraCitas, pos)
    else if opcion == 5 then Paso(Sale, pos)
    else Paso(Avisa(OpcionNoValida), pos)
  }

  /** One iteration of the menu loop: read and parse the choice, then run
      the flow it selects. */
  function LeerPaso(nPacientes: nat, nDoctores: nat, entrada: seq<Linea>, pos: nat): (p: Paso)
    requires pos <= |entrada|
    ensures Continua(p.efecto) ==> pos < p.siguiente <= |entrada|
    ensures p.efecto == Sale <==> pos < |entrada| && entrada[pos].entero == Some(5)
    ensures pos < |entrada| && entrada[pos].entero.Some? && !(1 <= entrada[pos].entero.value <= 5) ==>
              p == Paso(Avisa(OpcionNoValida), pos + 1)
    ensures p.efecto.AgendaCita? ==>
              p.efecto.paciente < nPacientes && p.efecto.doctor < nDoctores
    ensures pos == |entrada| ==> p.efecto == Falla(FinDeEntrada)
    ensures pos < |entrada| && entrada[pos].entero.None? ==> p.efecto == Falla(FormatoInvalido)
    ensures pos < |entrada| && entrada[pos].entero.Some? ==>
              p == Despacho(nPacientes, nDoctores, entrada[pos].entero.value, entrada, pos + 1)
  {
    if pos >= |entrada| then Paso(Falla(FinDeEntrada), pos)
    else match entrada[pos].entero
      case None => Paso(Falla(FormatoInvalido), pos + 1)
      case Some(opcion) => Despacho(nPacientes, nDoctores, opcion, entrada, pos + 1)
  }

  /** The registry after an effect, compared with the one before it: each
      registering or scheduling effect appends exactly one entry to one list
      and leaves the other two alone; every other effect changes nothing. */
  ghost predicate Aplicado(e: Efecto,
                           pacientes0: seq<Paciente>, doctores0: seq<Doctor>, citas0: seq<Cita>,
                           pacientes1: seq<Paciente>, doctores1: seq<Doctor>, citas1: seq<Cita>)
    ensures Aplicado(e, pacientes0, doctores0, citas0, pacientes1, doctores1, citas1) ==>
              pacientes0 <= pacientes1 && doctores0 <= doctores1 && citas0 <= citas1 &&
              |pacientes1| + |doctores1| + |citas1| <= |pacientes0| + |doctores0| + |citas0| + 1
  {
    match e
    case RegistraPaciente(nombre, edad, telefono) =>
      doctores1 == doctores0 && citas1 == citas0 &&
      |pacientes1| == |pacientes0| + 1 && pacientes1[..|pacientes0|] == pacientes0 &&
      pacientes1[|pacientes0|].nombre == nombre && pacientes1[|pacientes0|].edad == edad &&
      pacientes1[|pacientes0|].telefono == telefono
    case RegistraDoctor(nombre, especialidad) =>
      pacientes1 == pacientes0 && citas1 == citas0 &&
      |doctores1| == |doctores0| + 1 && doctores1[..|doctores0|] == doctores0 &&
      doctores1[|doctores0|].nombre == nombre && doctores1[|doctores0|].especialidad == especialidad
    case AgendaCita(i, j, fecha) =>
      i < |pacientes0| && j < |doctores0| &&
      pacientes1 == pacientes0 && doctores1 == doctores0 &&
      |citas1| == |citas0| + 1 && citas1[..|citas0|] == citas0 &&
      citas1[|citas0|].paciente == pacientes0[i] && citas1[|citas0|].doctor == doctores0[j] &&
      citas1[|citas0|].fecha == fecha
    case _ =>
      pacientes1 == pacientes0 && doctores1 == doctores0 && citas1 == citas0
  }

  /** The counts after an effect. */
  function Aplicar(c: Conteo, e: Efecto): (r: Conteo)
  {
    match e
    case RegistraPaciente(_, _, _) => c.(pacientes := c.pacientes + 1)
    case RegistraDoctor(_, _) => c.(doctores := c.doctores + 1)
    case AgendaCita(_, _, _) => c.(citas := c.citas + 1)
    case _ => c
  }

  /** How a whole run of the menu ends. */
  datatype Desenlace = Salio | Fallo(falla: Falla)

  /** The counts at the end of a run of the menu over the rest of the
      script, and how the run ends. */
  function Corrida(c: Conteo, entrada: seq<Linea>, pos: nat): (r: (Conteo, Desenlace))
    requires pos <= |entrada|
    ensures r.1 == Salio ==> exists k :: pos <= k < |entrada| && entrada[k].entero == Some(5)
    decreases |entrada| - pos
  {
    var p := LeerPaso(c.pacientes, c.doctores, entrada, pos);
    match p.efecto
    case Sale => (c, Salio)
    case Falla(f) => (c, Fallo(f))
    case _ => Corrida(Aplicar(c, p.efecto), entrada, p.siguiente)
  }

  /** The effects a run of the menu applies over the rest of the script, in
      order: every step that neither exits nor fails contributes its effect. */
  function Traza(c: Conteo, entrada: seq<Linea>, pos: nat): (t: seq<Efecto>)
    requires pos <= |entrada|
    ensures forall k :: 0 <= k < |t| ==> Continua(t[k])
    ensures |t| <= |entrada| - pos
    decreases |entrada| - pos
  {
    var p := LeerPaso(c.pacientes, c.doctores, entrada, pos);
    if Continua(p.efecto) then [p.efecto] + Traza(Aplicar(c, p.efecto), entrada, p.siguiente)
    else []
  }

  /** The registering effects of a sequence of effects, split by the list
      they append to: patients, doctors and appointments, each in order. */
  function Registros(t: seq<Efecto>): (r: (seq<Efecto>, seq<Efecto>, seq<Efecto>))
    ensures forall k :: 0 <= k < |r.0| ==> r.0[k].RegistraPaciente?
    ensures forall k :: 0 <= k < |r.1| ==> r.1[k].RegistraDoctor?
    ensures forall k :: 0 <= k < |r.2| ==> r.2[k].AgendaCita?
    ensures |r.0| + |r.1| + |r.2| <= |t|
  {
    if t == [] then ([], [], [])
    else
      var r := Registros(t[..|t| - 1]);
      var e := t[|t| - 1];
      if e.RegistraPaciente? then (r.0 + [e], r.1, r.2)
      else if e.RegistraDoctor? then (r.0, r.1 + [e], r.2)
      else if e.AgendaCita? then (r.0, r.1, r.2 + [e])
      else r
  }

  /** The registry after a sequence of effects, compared with the one
      before it: the entries appended to each list are, in order, those the
      effects register, and each appended appointment joins the patient and
      the doctor at the positions its effect names. */
  ghost predicate Refleja(t: seq<Efecto>,
                          pacientes0: seq<Paciente>, doctores0: seq<Doctor>, citas0: seq<Cita>,
                          pacientes1: seq<Paciente>, doctores1: seq<Doctor>, citas1: seq<Cita>)
    ensures Refleja(t, pacientes0, doctores0, citas0, pacientes1, doctores1, citas1) ==>
              |pacientes1| + |doctores1| + |citas1| <= |pacientes0| + |doctores0| + |citas0| + |t|
  {
    var r := Registros(t);
    |pacientes1| == |pacientes0| + |r.0| &&
    |doctores1| == |doctores0| + |r.1| &&
    |citas1| == |citas0| + |r.2| &&
    (forall k :: 0 <= k < |r.0| ==>
       pacientes1[|pacientes0| + k].nombre == r.0[k].nombre &&
       pacientes1[|pacientes0| + k].edad == r.0[k].edad &&
       pacientes1[|pacientes0| + k].telefono == r.0[k].telefono) &&
    (forall k :: 0 <= k < |r.1| ==>
       doctores1[|doctores0| + k].nombre == r.1[k].nombre &&
       doctores1[|doctores0| + k].especialidad == r.1[k].especialidad) &&
    (forall k :: 0 <= k < |r.2| ==>
       r.2[k].paciente < |pacientes1| && r.2[k].doctor < |doctores1| &&
       citas1[|citas0| + k].paciente == pacientes1[r.2[k].paciente] &&
       citas1[|citas0| + k].doctor == doctores1[r.2[k].doctor] &&
       citas1[|citas0| + k].fecha == r.2[k].fecha)
  }

  /** Applying one more effect extends what a sequence of effects reflects. */
  lemma {:induction false} ReflejaPaso(t: seq<Efecto>, e: Efecto,
                        pacientes0: seq<Paciente>, doctores0: seq<Doctor>, citas0: seq<Cita>,
                        pacientes1: seq<Paciente>, doctores1: seq<Doctor>, citas1: seq<Cita>,
                        pacientes2: seq<Paciente>, doctores2: seq<Doctor>, citas2: seq<Cita>)
    requires Refleja(t, pacientes0, doctores0, citas0, pacientes1, doctores1, citas1)
    requires Aplicado(e, pacientes1, doctores1, citas1, pacientes2, doctores2, citas2)
    ensures Refleja(t + [e], pacientes0, doctores0, citas0, pacientes2, doctores2, citas2)
  {
    assert (t + [e])[..|t + [e]| - 1] == t;
    var r := Registros(t);
    var r2 := Registros(t + [e]);
    assert pacientes1 <= pacientes2 && doctores1 <= doctores2;
    forall k | 0 <= k < |r.2|
      ensures pacientes2[r.2[k].paciente] == pacientes1[r.2[k].paciente]
      ensures doctores2[r.2[k].doctor] == doctores1[r.2[k].doctor]
    {
    }
    if e.AgendaCita? {
      assert r2.2[|r.2|] == e;
    }
  }

  /** One step of a run, seen from the effects already applied: the step
      either adds its effect to them or ends the run with them. */
  lemma TrazaPaso(c0: Conteo, hecho: seq<Efecto>, c: Conteo, entrada: seq<Linea>, pos: nat)
    requires pos <= |entrada|
    requires Traza(c0, entrada, 0) == hecho + Traza(c, entrada, pos)
    ensures var p := LeerPaso(c.pacientes, c.doctores, entrada, pos);
            if Continua(p.efecto) then
              Traza(c0, entrada, 0) == (hecho + [p.efecto]) + Traza(Aplicar(c, p.efecto), entrada, p.siguiente)
            else Traza(c0, entrada, 0) == hecho
  {
    var p := LeerPaso(c.pacientes, c.doctores, entrada, pos);
    if Continua(p.efecto) {
      assert hecho + ([p.efecto] + Traza(Aplicar(c, p.efecto), entrada, p.siguiente))
          == (hecho + [p.efecto]) + Traza(Aplicar(c, p.efecto), entrada, p.siguiente);
    } else {
      assert hecho + [] == hecho;
    }
  }

  /** Every effect keeps the registry consistent: an appointment is only
      ever added for a patient and a doctor already in the lists, and
      nothing is ever removed. */
  lemma AplicadoConsistente(e: Efecto,
                            pacientes0: seq<Paciente>, doctores0: seq<Doctor>, citas0: seq<Cita>,
                            pacientes1: seq<Paciente>, doctores1: seq<Doctor>, citas1: seq<Cita>)
    requires Consistente(pacientes0, doctores0, citas0)
    requires Aplicado(e, pacientes0, doctores0, citas0, pacientes1, doctores1, citas1)
    ensures Consistente(pacientes1, doctores1, citas1)
  {
  }

  /** The counts follow the effect. */
  lemma AplicadoCuenta(e: Efecto,
                       pacientes0: seq<Paciente>, doctores0: seq<Doctor>, citas0: seq<Cita>,
                       pacientes1: seq<Paciente>, doctores1: seq<Doctor>, citas1: seq<Cita>)
    requires Aplicado(e, pacientes0, doctores0, citas0, pacientes1, doctores1, citas1)
    ensures Conteo(|pacientes1|, |doctores1|, |citas1|) ==
            Aplicar(Conteo(|pacientes0|, |doctores0|, |citas0|), e)
  {
  }

  /** Nothing is ever removed: over a whole run no count goes down. */
  lemma {:induction false} CorridaCrece(c: Conteo, entrada: seq<Linea>, pos: nat)
    requires pos <= |entrada|
    ensures Corrida(c, entrada, pos).0.pacientes >= c.pacientes
    ensures Corrida(c, entrada, pos).0.doctores >= c.doctores
    ensures Corrida(c, entrada, pos).0.citas >= c.citas
    decreases |entrada| - pos
  {
    var p := LeerPaso(c.pacientes, c.doctores, entrada, pos);
    if Continua(p.efecto) {
      CorridaCrece(Aplicar(c, p.efecto), entrada, p.siguiente);
    }
  }

  /** A run that schedules any appointment ends with at least one patient
      and one doctor registered: scheduling aborts on an empty list, and
      registrations are never undone. */
  lemma {:induction false} CitasRequierenPacienteYDoctor(c: Conteo, entrada: seq<Linea>, pos: nat)
    requires pos <= |entrada|
    ensures Corrida(c, entrada, pos).0.citas > c.citas ==>
              Corrida(c, entrada, pos).0.pacientes > 0 && Corrida(c, entrada, pos).0.doctores > 0
    decreases |entrada| - pos
  {
    var p := LeerPaso(c.pacientes, c.doctores, entrada, pos);
    if Continua(p.efecto) {
      var c' := Aplicar(c, p.efecto);
      if p.efecto.AgendaCita? {
        CorridaCrece(c', entrada, p.siguiente);
      } else {
        CitasRequierenPacienteYDoctor(c', entrada, p.siguiente);
      }
    }
  }

  /** Menu choices outside 1 to 5 change nothing: a script made only of
      them leaves the registry as it was and ends when the input runs out. */
  lemma {:induction false} OpcionesNoValidasNoCambianNada(c: Conteo, entrada: seq<Linea>, pos: nat)
    requires pos <= |entrada|
    requires forall k :: pos <= k < |entrada| ==>
               entrada[k].entero.Some? && !(1 <= entrada[k].entero.value <= 5)
    ensures Corrida(c, entrada, pos) == (c, Fallo(FinDeEntrada))
    decreases |entrada| - pos
  {
    if pos < |entrada| {
      OpcionesNoValidasNoCambianNada(c, entrada, pos + 1);
    }
  }

  /** One unfolding of Corrida, by the kind of effect of the first step. */
  lemma CorridaDespliega(c: Conteo, entrada: seq<Linea>, pos: nat)
    requires pos <= |entrada|
    ensures var p := LeerPaso(c.pacientes, c.doctores, entrada, pos);
            Corrida(c, entrada, pos) ==
              if p.efecto.Sale? then (c, Salio)
              else if p.efecto.Falla? then (c, Fallo(p.efecto.falla))
              else Corrida(Aplicar(c, p.efecto), entrada, p.siguiente)
    ensures var p := LeerPaso(c.pacientes, c.doctores, entrada, pos);
            Traza(c, entrada, pos) ==
              if Continua(p.efecto) then [p.efecto] + Traza(Aplicar(c, p.efecto), entrada, p.siguiente)
              else []
  {
  }
}
