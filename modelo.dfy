/** The three records of the clinic: patients, doctors and appointments.
    They are reference objects: an appointment holds the very patient and
    doctor objects that the registry lists, not copies of them. Their
    properties are assigned once, when the record is built, and never
    again, so they are constant fields here. */
module Modelo {

  /** The date of an appointment, an opaque calendar value; how it is
      parsed from text and printed is not part of this model. */
  datatype Fecha = Fecha(dia: int, mes: int, anio: int)

  class Paciente {
    const nombre: string
    const edad: int
    const telefono: string

    constructor (nombre: string, edad: int, telefono: string)
      ensures this.nombre == nombre && this.edad == edad && this.telefono == telefono
    {
      this.nombre := nombre;
      this.edad := edad;
      this.telefono := telefono;
    }
  }

  class Doctor {
    const nombre: string
    const especialidad: string

    constructor (nombre: string, especialidad: string)
      ensures this.nombre == nombre && this.especialidad == especialidad
    {
      this.nombre := nombre;
      this.especialidad := especialidad;
    }
  }

  class Cita {
    const paciente: Paciente
    const doctor: Doctor
    const fecha: Fecha

    constructor (paciente: Paciente, doctor: Doctor, fecha: Fecha)
      ensures this.paciente == paciente && this.doctor == doctor && this.fecha == fecha
    {
      this.paciente := paciente;
      this.doctor := doctor;
      this.fecha := fecha;
    }
  }

  /** The registry's structural invariant: every appointment refers to a
      patient and a doctor that are themselves in the registry. */
  predicate Consistente(pacientes: seq<Paciente>, doctores: seq<Doctor>, citas: seq<Cita>)
  {
    forall c :: c in citas ==> c.paciente in pacientes && c.doctor in doctores
  }

  /** A registry without appointments is consistent, whatever its patients
      and doctors. */
  lemma SinCitasEsConsistente(pacientes: seq<Paciente>, doctores: seq<Doctor>)
    ensures Consistente(pacientes, doctores, [])
  {
  }

  /** A consistent registry with an appointment has at least one patient
      and at least one doctor. */
  lemma CitasConRegistros(pacientes: seq<Paciente>, doctores: seq<Doctor>, citas: seq<Cita>)
    requires Consistente(pacientes, doctores, citas)
    requires citas != []
    ensures pacientes != [] && doctores != []
  {
    assert citas[0] in citas;
  }
}
