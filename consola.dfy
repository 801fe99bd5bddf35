/** The console as the menu sees it: a script of input lines and a list of
    messages written. Parsing text into numbers and dates is library code
    with culture rules, so each input line carries, beside its raw text,
    what parsing it as a 32-bit integer and as a date would give (None when
    the parse would throw). */
module Consola {
  import opened Modelo

  datatype Option<+T> = None | Some(value: T)

  datatype Linea = Linea(texto: string, entero: Option<int>, fecha: Option<Fecha>)

  /** The ways a run ends abnormally: a read past the end of the input
      (parsing a null line throws), text that does not parse, and a list
      index outside the list. */
  datatype Falla = FinDeEntrada | FormatoInvalido | IndiceFueraDeRango

  /** The lines the program writes, apart from the menu, the prompts and the
      "press any key" pause, whose text never varies. */
  datatype Mensaje =
    | PacienteRegistrado
    | DoctorRegistrado
    | NoHayPacientes
    | NoHayDoctores
    | OpcionPaciente(numero: int, nombre: string)
    | OpcionDoctor(numero: int, nombre: string, especialidad: string)
    | CitaAgendada
    | NoHayCitas
    | LineaCita(paciente: string, doctor: string, especialidad: string, fecha: Fecha)
    | Saliendo
    | OpcionNoValida
}
