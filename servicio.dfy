/** The registry service: three ordered, append-only lists. */
module Servicio {
  import opened Modelo

  /** The number of entries in each of the registry's three lists. */
  datatype Conteo = Conteo(pacientes: nat, doctores: nat, citas: nat)

  class ClinicaService {
    var pacientes: seq<Paciente>
    var doctores: seq<Doctor>
    var citas: seq<Cita>

    constructor ()
      ensures pacientes == [] && doctores == [] && citas == []
    {
      pacientes, doctores, citas := [], [], [];
    }

    /** The sizes of the three lists. */
    function Cuenta(): Conteo
      reads this
    {
      Conteo(|pacientes|, |doctores|, |citas|)
    }

    /** Builds a new patient from the arguments, whatever they are, and adds
        it at the end of the patient list. */
    method RegistrarPaciente(nombre: string, edad: int, telefono: string)
      modifies this
      ensures |pacientes| == |old(pacientes)| + 1
      ensures pacientes == old(pacientes) + [pacientes[|pacientes| - 1]]
      ensures fresh(pacientes[|pacientes| - 1])
      ensures pacientes[|pacientes| - 1].nombre == nombre
      ensures pacientes[|pacientes| - 1].edad == edad
      ensures pacientes[|pacientes| - 1].telefono == telefono
      ensures doctores == old(doctores) && citas == old(citas)
    {
      var paciente := new Paciente(nombre, edad, telefono);
      pacientes := pacientes + [paciente];
    }

    /** Builds a new doctor from the arguments and adds it at the end of the
        doctor list. */
    method RegistrarDoctor(nombre: string, especialidad: string)
      modifies this
      ensures |doctores| == |old(doctores)| + 1
      ensures doctores == old(doctores) + [doctores[|doctores| - 1]]
      ensures fresh(doctores[|doctores| - 1])
      ensures doctores[|doctores| - 1].nombre == nombre
      ensures doctores[|doctores| - 1].especialidad == especialidad
      ensures pacientes == old(pacientes) && citas == old(citas)
    {
      var doctor := new Doctor(nombre, especialidad);
      doctores := doctores + [doctor];
    }

    /** The patient list itself; every caller only reads it. */
    function ObtenerPacientes(): (r: seq<Paciente>)
      reads this
      ensures r == pacientes
    {
      pacientes
    }

    /** The doctor list itself; every caller only reads it. */
    function ObtenerDoctores(): (r: seq<Doctor>)
      reads this
      ensures r == doctores
    {
      doctores
    }

    /** Builds an appointment holding the given patient and doctor objects
        and adds it at the end of the appointment list. Nothing checks that
        the two objects are registered: that is the caller's duty. */
    method AgendarCita(paciente: Paciente, doctor: Doctor, fecha: Fecha)
      modifies this
      ensures |citas| == |old(citas)| + 1
      ensures citas == old(citas) + [citas[|citas| - 1]]
      ensures fresh(citas[|citas| - 1])
      ensures citas[|citas| - 1].paciente == paciente
      ensures citas[|citas| - 1].doctor == doctor
      ensures citas[|citas| - 1].fecha == fecha
      ensures pacientes == old(pacientes) && doctores == old(doctores)
    {
      var cita := new Cita(paciente, doctor, fecha);
      citas := citas + [cita];
    }

    /** The appointment list itself; every caller only reads it. */
    function ObtenerCitas(): (r: seq<Cita>)
      reads this
      ensures r == citas
    {
      citas
    }
  }
}
