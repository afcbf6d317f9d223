/** Records, template descriptors, run options, results and the static
    configuration of the generator (src/types/index.ts, src/config/settings.ts). */
module Tipos {
  import opened Cadenas

  /** One row of the data source: its 1-based position among the kept rows
      and the nine positional columns (missing cells are ""). */
  datatype Persona = Persona(
    indice: nat,
    apellido2: string,
    nombre: string,
    apellido1: string,
    email: string,
    telefono: string,
    documento: string,
    curso: string,
    fechaInicio: string,
    fechaFin: string)

  /** A JavaScript property value as the renderers see it. `Heredado` is a
      member every object inherits from `Object.prototype` (a function, or the
      prototype itself for `__proto__`), held by the text its `toString` gives. */
  datatype Valor = Texto(texto: string) | Numero(numero: int) | Indefinido | Heredado(representacion: string)

  /** JavaScript truthiness of a value; functions and objects are truthy. */
  predicate Verdadero(v: Valor) {
    match v
    case Texto(s) => s != ""
    case Numero(n) => n != 0
    case Indefinido => false
    case Heredado(_) => true
  }

  const CAMPOS_PERSONA: seq<string> :=
    ["indice", "apellido2", "nombre", "apellido1", "email", "telefono",
     "documento", "curso", "fecha_inicio", "fecha_fin"]

  /** The names a plain object literal inherits from `Object.prototype`. */
  const PROPIEDADES_HEREDADAS: seq<string> :=
    ["constructor", "__defineGetter__", "__defineSetter__", "hasOwnProperty",
     "__lookupGetter__", "__lookupSetter__", "isPrototypeOf", "propertyIsEnumerable",
     "toString", "valueOf", "__proto__", "toLocaleString"]

  /** What `toString()` gives for an inherited member, as V8 renders it: a
      built-in function prints its name with a native-code body, the
      constructor is `Object`, and the prototype is a plain object. */
  function TextoHeredado(nombre: string): (r: string)
    ensures r != ""
  {
    if nombre == "__proto__" then "[object Object]"
    else if nombre == "constructor" then "function Object() { [native code] }"
    else "function " + nombre + "() { [native code] }"
  }

  /** One of the record's own ten fields by name. */
  function CampoPropio(p: Persona, campo: string): (r: Valor)
    requires campo in CAMPOS_PERSONA
    ensures r.Numero? || r.Texto?
    ensures r.Numero? <==> campo == "indice"
    ensures r.Numero? ==> r.numero == p.indice
  {
    if campo == "indice" then Numero(p.indice)
    else if campo == "apellido2" then Texto(p.apellido2)
    else if campo == "nombre" then Texto(p.nombre)
    else if campo == "apellido1" then Texto(p.apellido1)
    else if campo == "email" then Texto(p.email)
    else if campo == "telefono" then Texto(p.telefono)
    else if campo == "documento" then Texto(p.documento)
    else if campo == "curso" then Texto(p.curso)
    else if campo == "fecha_inicio" then Texto(p.fechaInicio)
    else Texto(p.fechaFin)
  }

  /** `persona[campo]` for a property name: one of the record's own ten
      fields, else an inherited member, else undefined. */
  function CampoPersona(p: Persona, campo: string): (r: Valor)
    ensures r.Indefinido? <==> campo !in CAMPOS_PERSONA && campo !in PROPIEDADES_HEREDADAS
    ensures r.Numero? <==> campo == "indice"
    ensures r.Numero? ==> r.numero == p.indice
    ensures r.Texto? <==> campo in CAMPOS_PERSONA && campo != "indice"
    ensures r.Heredado? ==> campo in PROPIEDADES_HEREDADAS && r.representacion == TextoHeredado(campo)
  {
    if campo in CAMPOS_PERSONA then CampoPropio(p, campo)
    else if campo in PROPIEDADES_HEREDADAS then Heredado(TextoHeredado(campo))
    else Indefinido
  }

  /** No own field shadows an inherited member, so every inherited name
      reaches `Object.prototype`. */
  lemma CampoHeredado(p: Persona, campo: string)
    requires campo in PROPIEDADES_HEREDADAS
    ensures CampoPersona(p, campo) == Heredado(TextoHeredado(campo))
  {
    assert campo !in CAMPOS_PERSONA by {
      var i :| 0 <= i < |PROPIEDADES_HEREDADAS| && PROPIEDADES_HEREDADAS[i] == campo;
    }
  }

  datatype TipoPlantilla = Word | Excel

  /** A template descriptor: logical name, file, shape and description. */
  datatype PlantillaConfig = PlantillaConfig(
    nombre: string,
    archivo: string,
    tipo: TipoPlantilla,
    descripcion: string)

  /** The output mode; any other string given on the command line is kept. */
  datatype TipoSalida = SoloPdf | SoloOriginales | Ambos | OtraSalida(texto: string)

  datatype ModoEjecucion = Todos | Rango | Especifico | OtroModo(texto: string)

  /** Run options; an absent optional field is None. */
  datatype OpcionesEjecucion = OpcionesEjecucion(
    modo: ModoEjecucion,
    tipoSalida: TipoSalida,
    rangoInicio: Option<int>,
    rangoFin: Option<int>,
    nombreEspecifico: Option<string>,
    plantillasEspecificas: Option<seq<string>>,
    outputDir: Option<string>)

  /** Per-record result. */
  datatype ResultadoPersona = ResultadoPersona(
    nombre: string,
    exitos: nat,
    errores: nat,
    documentosGenerados: seq<string>,
    erroresDetallados: seq<string>)

  /** Batch result (without the elapsed time). */
  datatype ResultadoProceso = ResultadoProceso(
    exitos: nat,
    errores: nat,
    personasProcesadas: nat,
    detalles: seq<ResultadoPersona>)

  /** The templates a run works on: with a list of names, the configured ones
      whose name is listed, in configuration order; otherwise all of them.
      An empty list selects nothing (an empty array is truthy). */
  function Seleccion(config: seq<PlantillaConfig>, nombres: Option<seq<string>>): (r: seq<PlantillaConfig>)
    ensures |r| <= |config|
    ensures forall t :: t in r <==> t in config && (nombres.None? || t.nombre in nombres.value)
    ensures nombres.None? ==> r == config
  {
    if config == [] then []
    else
      var resto := Seleccion(config[1..], nombres);
      if nombres.None? || config[0].nombre in nombres.value then [config[0]] + resto else resto
  }

  /** Selection keeps configuration order: it distributes over concatenation. */
  lemma {:induction false} SeleccionConcatena(a: seq<PlantillaConfig>, b: seq<PlantillaConfig>, nombres: Option<seq<string>>)
    ensures Seleccion(a + b, nombres) == Seleccion(a, nombres) + Seleccion(b, nombres)
  {
    if a != [] {
      assert (a + b)[1..] == a[1..] + b;
      SeleccionConcatena(a[1..], b, nombres);
    } else {
      assert a + b == b;
    }
  }

  // ---------------------------------------------------------------- config

  /** `path.join` of a directory and one entry name (POSIX separator). */
  function JuntarRuta(dir: string, nombre: string): string {
    if nombre == "" then dir else if dir == "" then nombre else dir + "/" + nombre
  }

  const LIMITE_PERSONAS: int := 500
  const SOFFICE_PATH: string := "/usr/bin/libreoffice"
  const INTENTOS_CONVERSION: int := 3
  const TIMEOUT_PDF_MS: nat := 60000

  /** CONFIG.PLANTILLAS, for the project root `raiz`. */
  function Plantillas(raiz: string): seq<PlantillaConfig> {
    [ PlantillaConfig("certificado_trabajo",
        JuntarRuta(raiz, "plantillas/Carta certificado de trabajo TEDO 2025.docx"),
        Word, "Certificado de trabajo oficial"),
      PlantillaConfig("credenciales",
        JuntarRuta(raiz, "plantillas/06 FORM 006.xlsx"),
        Excel, "Formulario de credenciales") ]
  }

  /** CONFIG.OUTPUT_DIR, for the project root `raiz`. */
  function DirectorioSalida(raiz: string): string {
    JuntarRuta(raiz, "docs_generados")
  }

  /** MAPEOS_EXCEL: per template, (field, cell) entries in declaration order. */
  const MAPEOS_EXCEL: map<string, seq<(string, string)>> := map[
    "credenciales" := [("nombre", "C8"), ("apellido1", "M8"), ("apellido2", "U8")],
    "evaluacion" := [("nombre", "B5"), ("apellido1", "D5"), ("apellido2", "F5")],
    "registro_asistencia" := [("nombre", "A1"), ("apellido1", "B1"), ("apellido2", "C1")],
    "perfil_estudiante" := [("nombre", "C3"), ("apellido1", "E3"), ("apellido2", "G3"),
                            ("email", "I3"), ("telefono", "K3")]
  ]
}
