/** The batch orchestrator (src/cli/processor.ts): for every person, create
    the person's folder, process every selected template in the chosen output
    mode, clean up, and collect the counts. What the services would report
    (renders, conversions, directory creation) comes from a `Mundo`. */
module Procesador {
  import opened Cadenas
  import opened Tipos
  import opened Archivos
  import opened Hojas
  import opened Generador
  import opened Conversor

  /** A call the orchestrator makes into a service, in call order. */
  datatype Accion = Renderizar(ruta: string) | ConvertirPdf(ruta: string) | Limpiar(dir: string)

  /** What the services report for one template of one person: the clock
      and random inputs of enrichment, the workbook as read, the result of
      writing the output file, and how each converter run ends. */
  datatype Oraculos = Oraculos(
    entorno: Entorno,
    libro: Result<seq<Celdas>>,
    fallaEscritura: Option<string>,
    herramienta: int -> Intento)

  /** The environment of a run. Persons are numbered by their position in
      the list (from 0) and templates by their name. */
  datatype Mundo = Mundo(
    motor: (Blob, DatosEnriquecidos) -> SalidaMotor,
    leer: string -> Result<Blob>,
    fallaSalida: Option<string>,
    fallaDirectorio: nat -> Option<string>,
    oraculos: nat -> string -> Oraculos,
    fallaUnlink: set<string>)

  /** The files and directories that exist. */
  datatype Estado = Estado(archivos: set<string>, directorios: set<string>)

  // --------------------------------------------------------- one template

  function Extension(t: TipoPlantilla): string {
    if t == Word then "docx" else "xlsx"
  }

  /** `dirUsuario/<template name>.docx` for Word, `.xlsx` otherwise. */
  function RutaOriginal(dirUsuario: string, plantilla: PlantillaConfig): string {
    JuntarRuta(dirUsuario, plantilla.nombre + "." + Extension(plantilla.tipo))
  }

  /** The modes that render the original document. */
  predicate GeneraOriginal(t: TipoSalida) {
    t == SoloOriginales || t == Ambos
  }

  /** The modes that convert to PDF. */
  predicate GeneraPdf(t: TipoSalida) {
    t == SoloPdf || t == Ambos
  }

  /** The outcome of a step, the files after it and the calls it made. */
  datatype Efecto = Efecto(resultado: Outcome, archivos: set<string>, acciones: seq<Accion>)

  /** One render of `plantilla` for `persona` to `ruta`. */
  function Generacion(persona: Persona, plantilla: PlantillaConfig, ruta: string, cache: map<string, Blob>,
                      o: Oraculos, motor: (Blob, DatosEnriquecidos) -> SalidaMotor, archivos: set<string>): (e: Efecto)
    ensures e.acciones == [Renderizar(ruta)]
    ensures e.archivos == if e.resultado.Pass? then archivos + {ruta} else archivos
  {
    if plantilla.tipo == Word then
      var r := ResultadoWord(cache, plantilla.nombre, Enriquecer(persona, o.entorno), motor, o.fallaEscritura);
      Efecto(r, if r.Pass? then archivos + {ruta} else archivos, [Renderizar(ruta)])
    else
      var r := LibroExcel(o.libro, persona, plantilla.nombre, o.fallaEscritura);
      Efecto(if r.Ok? then Pass else Fail(r.error), if r.Ok? then archivos + {ruta} else archivos, [Renderizar(ruta)])
  }

  /** `procesarPlantillaParaPersona`: render once in every known mode, then
      convert in the PDF modes; any other mode does nothing. */
  function PlantillaParaPersona(persona: Persona, plantilla: PlantillaConfig, dirUsuario: string, tipo: TipoSalida,
                                cache: map<string, Blob>, o: Oraculos, motor: (Blob, DatosEnriquecidos) -> SalidaMotor,
                                archivos: set<string>, directorios: set<string>): Efecto
  {
    var ruta := RutaOriginal(dirUsuario, plantilla);
    if !GeneraOriginal(tipo) && !GeneraPdf(tipo) then Efecto(Pass, archivos, [])
    else
      var g := Generacion(persona, plantilla, ruta, cache, o, motor, archivos);
      if g.resultado.Fail? || !GeneraPdf(tipo) then g
      else
        var c := Convertir(ruta, dirUsuario, INTENTOS_CONVERSION, o.herramienta, g.archivos, directorios);
        Efecto(if c.resultado.Ok? then Pass else Fail(c.resultado.error), c.archivos, g.acciones + [ConvertirPdf(ruta)])
  }

  /** The dispatch by mode, outside the PDF modes: `solo-originals` is one
      render and nothing else; any other mode does nothing at all and still
      succeeds. */
  lemma PlantillaDespachoOriginales(persona: Persona, plantilla: PlantillaConfig, dirUsuario: string, tipo: TipoSalida,
                                    cache: map<string, Blob>, o: Oraculos, motor: (Blob, DatosEnriquecidos) -> SalidaMotor,
                                    archivos: set<string>, directorios: set<string>)
    ensures var e := PlantillaParaPersona(persona, plantilla, dirUsuario, tipo, cache, o, motor, archivos, directorios);
            (tipo == SoloOriginales ==>
               e == Generacion(persona, plantilla, RutaOriginal(dirUsuario, plantilla), cache, o, motor, archivos)
               && e.acciones == [Renderizar(RutaOriginal(dirUsuario, plantilla))])
            && (tipo.OtraSalida? ==> e == Efecto(Pass, archivos, []))
  {
  }

  /** The dispatch in `solo-pdf` and `ambos`: one render, then a conversion
      only when the render succeeded; a success leaves the PDF
      `dirUsuario/<name>.pdf` in place. */
  lemma PlantillaDespachoPdf(persona: Persona, plantilla: PlantillaConfig, dirUsuario: string, tipo: TipoSalida,
                             cache: map<string, Blob>, o: Oraculos, motor: (Blob, DatosEnriquecidos) -> SalidaMotor,
                             archivos: set<string>, directorios: set<string>)
    requires GeneraPdf(tipo)
    ensures var e := PlantillaParaPersona(persona, plantilla, dirUsuario, tipo, cache, o, motor, archivos, directorios);
            var ruta := RutaOriginal(dirUsuario, plantilla);
            var g := Generacion(persona, plantilla, ruta, cache, o, motor, archivos);
            e.acciones == (if g.resultado.Pass? then [Renderizar(ruta), ConvertirPdf(ruta)] else [Renderizar(ruta)])
            && (e.resultado.Pass? ==> var pdf := RutaPdf(ruta, dirUsuario); pdf in e.archivos || pdf in directorios)
  {
    var ruta := RutaOriginal(dirUsuario, plantilla);
    var g := Generacion(persona, plantilla, ruta, cache, o, motor, archivos);
    if g.resultado.Pass? {
      ConvertirCotas(ruta, dirUsuario, INTENTOS_CONVERSION, o.herramienta, g.archivos, directorios);
    }
  }

  /** Processing one template never cleans up. */
  lemma PlantillaSinLimpieza(persona: Persona, plantilla: PlantillaConfig, dirUsuario: string, tipo: TipoSalida,
                             cache: map<string, Blob>, o: Oraculos, motor: (Blob, DatosEnriquecidos) -> SalidaMotor,
                             archivos: set<string>, directorios: set<string>)
    ensures Limpiezas(PlantillaParaPersona(persona, plantilla, dirUsuario, tipo, cache, o, motor, archivos, directorios).acciones) == 0
  {
    var ruta := RutaOriginal(dirUsuario, plantilla);
    var e := PlantillaParaPersona(persona, plantilla, dirUsuario, tipo, cache, o, motor, archivos, directorios);
    assert Limpiezas([]) == 0;
    assert Limpiezas([Renderizar(ruta)]) == 0;
    assert Limpiezas([Renderizar(ruta), ConvertirPdf(ruta)]) == 0 by {
      assert [Renderizar(ruta), ConvertirPdf(ruta)][..1] == [Renderizar(ruta)];
    }
    if GeneraPdf(tipo) {
      PlantillaDespachoPdf(persona, plantilla, dirUsuario, tipo, cache, o, motor, archivos, directorios);
    } else {
      PlantillaDespachoOriginales(persona, plantilla, dirUsuario, tipo, cache, o, motor, archivos, directorios);
    }
  }

  // ------------------------------------------------------------ one person

  /** The display name: `trim(nombre + " " + apellido1)`. */
  function NombreVisible(p: Persona): string {
    Recortar(p.nombre + " " + p.apellido1)
  }

  /** `dirUsuario`: the output folder joined with the sanitised first name. */
  function DirectorioUsuario(outputDir: string, p: Persona): string {
    JuntarRuta(outputDir, LimpiarNombre(p.nombre))
  }

  const EXTENSIONES_ORIGINALES: seq<string> := [".docx", ".xlsx"]

  /** Counts one template: a success adds its name, a failure "name: msg". */
  function AnotarPlantilla(r: ResultadoPersona, nombre: string, o: Outcome): ResultadoPersona {
    if o.Pass? then r.(exitos := r.exitos + 1, documentosGenerados := r.documentosGenerados + [nombre])
    else r.(errores := r.errores + 1, erroresDetallados := r.erroresDetallados + [nombre + ": " + o.error])
  }

  datatype Avance = Avance(resultado: ResultadoPersona, archivos: set<string>, acciones: seq<Accion>)

  /** The loop over the selected templates of person `i`. */
  function ProcesarPlantillas(sel: seq<PlantillaConfig>, persona: Persona, i: nat, dirUsuario: string,
                              tipo: TipoSalida, cache: map<string, Blob>, mundo: Mundo,
                              archivos: set<string>, directorios: set<string>): Avance
  {
    if sel == [] then Avance(ResultadoPersona(NombreVisible(persona), 0, 0, [], []), archivos, [])
    else
      var q := ProcesarPlantillas(sel[..|sel| - 1], persona, i, dirUsuario, tipo, cache, mundo, archivos, directorios);
      var t := sel[|sel| - 1];
      var e := PlantillaParaPersona(persona, t, dirUsuario, tipo, cache, mundo.oraculos(i)(t.nombre), mundo.motor, q.archivos, directorios);
      Avance(AnotarPlantilla(q.resultado, t.nombre, e.resultado), e.archivos, q.acciones + e.acciones)
  }

  /** One more template of the loop: the account, the files and the calls
      of the first k + 1 templates extend those of the first k. */
  lemma ProcesarPlantillasPaso(sel: seq<PlantillaConfig>, k: nat, persona: Persona, i: nat, dirUsuario: string,
                               tipo: TipoSalida, cache: map<string, Blob>, mundo: Mundo,
                               archivos: set<string>, directorios: set<string>)
    requires k < |sel|
    ensures var q := ProcesarPlantillas(sel[..k], persona, i, dirUsuario, tipo, cache, mundo, archivos, directorios);
            var t := sel[k];
            var e := PlantillaParaPersona(persona, t, dirUsuario, tipo, cache, mundo.oraculos(i)(t.nombre), mundo.motor,
                                          q.archivos, directorios);
            ProcesarPlantillas(sel[..k + 1], persona, i, dirUsuario, tipo, cache, mundo, archivos, directorios)
            == Avance(AnotarPlantilla(q.resultado, t.nombre, e.resultado), e.archivos, q.acciones + e.acciones)
  {
    assert sel[..k + 1][..k] == sel[..k];
  }

  /** Every template of `sel` is counted once, as a success or as a failure:
      successes plus failures is the number of templates, each success lists
      a template name and each failure begins with one. */
  predicate Contabilizado(r: ResultadoPersona, sel: seq<PlantillaConfig>) {
    r.exitos + r.errores == |sel|
    && |r.documentosGenerados| == r.exitos && |r.erroresDetallados| == r.errores
    && (forall k :: 0 <= k < |r.documentosGenerados| ==> exists t :: t in sel && r.documentosGenerados[k] == t.nombre)
    && (forall k :: 0 <= k < |r.erroresDetallados| ==>
          exists t :: t in sel && EmpiezaCon(r.erroresDetallados[k], t.nombre + ": "))
  }

  /** Counting the last template of `sel` keeps the account. */
  lemma AnotarPlantillaContabilizada(r: ResultadoPersona, sel: seq<PlantillaConfig>, o: Outcome)
    requires sel != [] && Contabilizado(r, sel[..|sel| - 1])
    ensures Contabilizado(AnotarPlantilla(r, sel[|sel| - 1].nombre, o), sel)
  {
    var p := sel[..|sel| - 1];
    var t := sel[|sel| - 1];
    var a := AnotarPlantilla(r, t.nombre, o);
    assert forall u :: u in p ==> u in sel;
    assert t in sel;
    forall k | 0 <= k < |a.documentosGenerados| ensures exists u :: u in sel && a.documentosGenerados[k] == u.nombre {
      if k < |r.documentosGenerados| {
        assert a.documentosGenerados[k] == r.documentosGenerados[k];
      } else {
        assert a.documentosGenerados[k] == t.nombre;
      }
    }
    forall k | 0 <= k < |a.erroresDetallados| ensures exists u :: u in sel && EmpiezaCon(a.erroresDetallados[k], u.nombre + ": ") {
      if k < |r.erroresDetallados| {
        assert a.erroresDetallados[k] == r.erroresDetallados[k];
      } else {
        var m := a.erroresDetallados[k];
        assert m == (t.nombre + ": ") + m[|t.nombre + ": "|..];
      }
    }
  }

  /** The template loop goes on after a failure: every selected template is
      counted, under the person's display name. */
  lemma {:induction false} ProcesarPlantillasCuenta(sel: seq<PlantillaConfig>, persona: Persona, i: nat, dirUsuario: string,
                                                   tipo: TipoSalida, cache: map<string, Blob>, mundo: Mundo,
                                                   archivos: set<string>, directorios: set<string>)
    ensures var r := ProcesarPlantillas(sel, persona, i, dirUsuario, tipo, cache, mundo, archivos, directorios).resultado;
            r.nombre == NombreVisible(persona) && Contabilizado(r, sel)
  {
    if sel != [] {
      var p := sel[..|sel| - 1];
      var t := sel[|sel| - 1];
      ProcesarPlantillasCuenta(p, persona, i, dirUsuario, tipo, cache, mundo, archivos, directorios);
      var q := ProcesarPlantillas(p, persona, i, dirUsuario, tipo, cache, mundo, archivos, directorios);
      var e := PlantillaParaPersona(persona, t, dirUsuario, tipo, cache, mundo.oraculos(i)(t.nombre), mundo.motor, q.archivos, directorios);
      assert ProcesarPlantillas(sel, persona, i, dirUsuario, tipo, cache, mundo, archivos, directorios).resultado
             == AnotarPlantilla(q.resultado, t.nombre, e.resultado);
      AnotarPlantillaContabilizada(q.resultado, sel, e.resultado);
    }
  }

  datatype PasoPersona = PasoPersona(resultado: ResultadoPersona, estado: Estado, acciones: seq<Accion>)

  /** `procesarPersonaIndividual` for person `i`. A folder that cannot be
      created counts every configured template as an error. */
  function ProcesarPersona(persona: Persona, i: nat, opciones: OpcionesEjecucion, outputDir: string,
                           config: seq<PlantillaConfig>, cache: map<string, Blob>, mundo: Mundo, s: Estado): PasoPersona
  {
    var dir := DirectorioUsuario(outputDir, persona);
    match mundo.fallaDirectorio(i)
    case Some(m) =>
      PasoPersona(ResultadoPersona(NombreVisible(persona), 0, |config|, [],
                                   ["Error general: " + ("No se pudo crear directorio " + dir + ": " + m)]), s, [])
    case None => PersonaConCarpeta(persona, i, opciones, dir, config, cache, mundo, Estado(s.archivos, s.directorios + {dir}))
  }

  /** The part of `procesarPersonaIndividual` after folder `dir` exists: the
      selected templates, then in `solo-pdf` the cleanup of the folder. */
  function PersonaConCarpeta(persona: Persona, i: nat, opciones: OpcionesEjecucion, dir: string,
                             config: seq<PlantillaConfig>, cache: map<string, Blob>, mundo: Mundo, s: Estado): PasoPersona
  {
    var q := ProcesarPlantillas(Seleccion(config, opciones.plantillasEspecificas), persona, i, dir,
                                opciones.tipoSalida, cache, mundo, s.archivos, s.directorios);
    if opciones.tipoSalida == SoloPdf then
      PasoPersona(q.resultado, Estado(TrasLimpieza(q.archivos, s.directorios, dir, EXTENSIONES_ORIGINALES, mundo.fallaUnlink), s.directorios),
                  q.acciones + [Limpiar(dir)])
    else PasoPersona(q.resultado, Estado(q.archivos, s.directorios), q.acciones)
  }

  /** The calls to the cleanup in a trace. */
  function Limpiezas(acciones: seq<Accion>): nat {
    if acciones == [] then 0
    else Limpiezas(acciones[..|acciones| - 1]) + (if acciones[|acciones| - 1].Limpiar? then 1 else 0)
  }

  lemma {:induction false} LimpiezasConcatena(a: seq<Accion>, b: seq<Accion>)
    ensures Limpiezas(a + b) == Limpiezas(a) + Limpiezas(b)
    decreases |b|
  {
    if b == [] {
      assert a + b == a;
    } else {
      var b0 := b[..|b| - 1];
      assert (a + b)[..|a + b| - 1] == a + b0;
      LimpiezasConcatena(a, b0);
    }
  }

  /** Template processing never cleans up. */
  lemma {:induction false} ProcesarPlantillasSinLimpieza(sel: seq<PlantillaConfig>, persona: Persona, i: nat, dirUsuario: string,
                                                        tipo: TipoSalida, cache: map<string, Blob>, mundo: Mundo,
                                                        archivos: set<string>, directorios: set<string>)
    ensures Limpiezas(ProcesarPlantillas(sel, persona, i, dirUsuario, tipo, cache, mundo, archivos, directorios).acciones) == 0
  {
    if sel != [] {
      var p := sel[..|sel| - 1];
      var t := sel[|sel| - 1];
      ProcesarPlantillasSinLimpieza(p, persona, i, dirUsuario, tipo, cache, mundo, archivos, directorios);
      var q := ProcesarPlantillas(p, persona, i, dirUsuario, tipo, cache, mundo, archivos, directorios);
      var e := PlantillaParaPersona(persona, t, dirUsuario, tipo, cache, mundo.oraculos(i)(t.nombre), mundo.motor, q.archivos, directorios);
      LimpiezasConcatena(q.acciones, e.acciones);
      PlantillaSinLimpieza(persona, t, dirUsuario, tipo, cache, mundo.oraculos(i)(t.nombre), mundo.motor, q.archivos, directorios);
    }
  }

  /** Once the folder exists, every selected template is counted, and in
      `solo-pdf` the cleanup runs exactly once, whatever the results. If the
      folder cannot be created, no template is tried, the errors are the
      number of configured templates and one general entry is recorded. */
  lemma ProcesarPersonaCuenta(persona: Persona, i: nat, opciones: OpcionesEjecucion, outputDir: string,
                              config: seq<PlantillaConfig>, cache: map<string, Blob>, mundo: Mundo, s: Estado)
    ensures var p := ProcesarPersona(persona, i, opciones, outputDir, config, cache, mundo, s);
            var sel := Seleccion(config, opciones.plantillasEspecificas);
            p.resultado.nombre == NombreVisible(persona)
            && (mundo.fallaDirectorio(i).None? ==>
                  p.resultado.exitos + p.resultado.errores == |sel|
                  && DirectorioUsuario(outputDir, persona) in p.estado.directorios
                  && Limpiezas(p.acciones) == (if opciones.tipoSalida == SoloPdf then 1 else 0))
            && (mundo.fallaDirectorio(i).Some? ==>
                  p.resultado.exitos == 0 && p.resultado.errores == |config| && p.acciones == [] && p.estado == s
                  && p.resultado.erroresDetallados == ["Error general: " + ("No se pudo crear directorio "
                                                       + DirectorioUsuario(outputDir, persona) + ": " + mundo.fallaDirectorio(i).value)])
  {
    if mundo.fallaDirectorio(i).None? {
      var dir := DirectorioUsuario(outputDir, persona);
      var dirs := s.directorios + {dir};
      var sel := Seleccion(config, opciones.plantillasEspecificas);
      ProcesarPlantillasCuenta(sel, persona, i, dir, opciones.tipoSalida, cache, mundo, s.archivos, dirs);
      ProcesarPlantillasSinLimpieza(sel, persona, i, dir, opciones.tipoSalida, cache, mundo, s.archivos, dirs);
      var q := ProcesarPlantillas(sel, persona, i, dir, opciones.tipoSalida, cache, mundo, s.archivos, dirs);
      LimpiezasConcatena(q.acciones, [Limpiar(dir)]);
      assert Limpiezas([Limpiar(dir)]) == 1;
    }
  }

  // ------------------------------------------------------------ all persons

  datatype Recorrido = Recorrido(resultados: seq<ResultadoPersona>, estado: Estado, acciones: seq<Accion>)

  /** `procesarPersonas`: each person in turn, person k being number k. */
  function ProcesarTodas(ps: seq<Persona>, opciones: OpcionesEjecucion, outputDir: string, config: seq<PlantillaConfig>,
                         cache: map<string, Blob>, mundo: Mundo, s: Estado): Recorrido
  {
    if ps == [] then Recorrido([], s, [])
    else
      var q := ProcesarTodas(ps[..|ps| - 1], opciones, outputDir, config, cache, mundo, s);
      var p := ProcesarPersona(ps[|ps| - 1], |ps| - 1, opciones, outputDir, config, cache, mundo, q.estado);
      Recorrido(q.resultados + [p.resultado], p.estado, q.acciones + p.acciones)
  }

  /** One more person of the loop: the results, the state and the calls of
      the first k + 1 persons extend those of the first k. */
  lemma ProcesarTodasPaso(ps: seq<Persona>, k: nat, opciones: OpcionesEjecucion, outputDir: string,
                          config: seq<PlantillaConfig>, cache: map<string, Blob>, mundo: Mundo, s: Estado)
    requires k < |ps|
    ensures var q := ProcesarTodas(ps[..k], opciones, outputDir, config, cache, mundo, s);
            var p := ProcesarPersona(ps[k], k, opciones, outputDir, config, cache, mundo, q.estado);
            ProcesarTodas(ps[..k + 1], opciones, outputDir, config, cache, mundo, s)
            == Recorrido(q.resultados + [p.resultado], p.estado, q.acciones + p.acciones)
  {
    assert ps[..k + 1][..k] == ps[..k];
  }

  /** A person's result carries the person's display name. */
  lemma ProcesarPersonaNombre(persona: Persona, i: nat, opciones: OpcionesEjecucion, outputDir: string,
                              config: seq<PlantillaConfig>, cache: map<string, Blob>, mundo: Mundo, s: Estado)
    ensures ProcesarPersona(persona, i, opciones, outputDir, config, cache, mundo, s).resultado.nombre == NombreVisible(persona)
  {
    if mundo.fallaDirectorio(i).None? {
      var dir := DirectorioUsuario(outputDir, persona);
      ProcesarPlantillasNombre(Seleccion(config, opciones.plantillasEspecificas), persona, i, dir, opciones.tipoSalida,
                               cache, mundo, s.archivos, s.directorios + {dir});
    }
  }

  lemma {:induction false} ProcesarPlantillasNombre(sel: seq<PlantillaConfig>, persona: Persona, i: nat, dirUsuario: string,
                                                   tipo: TipoSalida, cache: map<string, Blob>, mundo: Mundo,
                                                   archivos: set<string>, directorios: set<string>)
    ensures ProcesarPlantillas(sel, persona, i, dirUsuario, tipo, cache, mundo, archivos, directorios).resultado.nombre
            == NombreVisible(persona)
  {
    if sel != [] {
      ProcesarPlantillasNombre(sel[..|sel| - 1], persona, i, dirUsuario, tipo, cache, mundo, archivos, directorios);
    }
  }

  lemma {:induction false} ProcesarPlantillasTotal(sel: seq<PlantillaConfig>, persona: Persona, i: nat, dirUsuario: string,
                                                  tipo: TipoSalida, cache: map<string, Blob>, mundo: Mundo,
                                                  archivos: set<string>, directorios: set<string>)
    ensures var r := ProcesarPlantillas(sel, persona, i, dirUsuario, tipo, cache, mundo, archivos, directorios).resultado;
            r.exitos + r.errores == |sel|
  {
    if sel != [] {
      ProcesarPlantillasTotal(sel[..|sel| - 1], persona, i, dirUsuario, tipo, cache, mundo, archivos, directorios);
    }
  }

  /** With the folder created, a person counts every selected template. */
  lemma ProcesarPersonaTotal(persona: Persona, i: nat, opciones: OpcionesEjecucion, outputDir: string,
                             config: seq<PlantillaConfig>, cache: map<string, Blob>, mundo: Mundo, s: Estado)
    requires mundo.fallaDirectorio(i).None?
    ensures var r := ProcesarPersona(persona, i, opciones, outputDir, config, cache, mundo, s).resultado;
            r.exitos + r.errores == |Seleccion(config, opciones.plantillasEspecificas)|
  {
    var dir := DirectorioUsuario(outputDir, persona);
    ProcesarPlantillasTotal(Seleccion(config, opciones.plantillasEspecificas), persona, i, dir, opciones.tipoSalida,
                            cache, mundo, s.archivos, s.directorios + {dir});
  }

  /** One result per person, in input order, under the person's display name. */
  lemma {:induction false} ProcesarTodasUnoPorPersona(ps: seq<Persona>, opciones: OpcionesEjecucion, outputDir: string,
                                                      config: seq<PlantillaConfig>, cache: map<string, Blob>, mundo: Mundo, s: Estado)
    ensures var r := ProcesarTodas(ps, opciones, outputDir, config, cache, mundo, s).resultados;
            |r| == |ps| && forall k :: 0 <= k < |ps| ==> r[k].nombre == NombreVisible(ps[k])
  {
    if ps != [] {
      var init := ps[..|ps| - 1];
      var q := ProcesarTodas(init, opciones, outputDir, config, cache, mundo, s);
      var p := ProcesarPersona(ps[|ps| - 1], |ps| - 1, opciones, outputDir, config, cache, mundo, q.estado);
      ProcesarTodasUnoPorPersona(init, opciones, outputDir, config, cache, mundo, s);
      ProcesarPersonaNombre(ps[|ps| - 1], |ps| - 1, opciones, outputDir, config, cache, mundo, q.estado);
      var r := ProcesarTodas(ps, opciones, outputDir, config, cache, mundo, s).resultados;
      assert r == q.resultados + [p.resultado];
      forall k | 0 <= k < |ps| ensures r[k].nombre == NombreVisible(ps[k]) {
        if k < |ps| - 1 {
          assert r[k] == q.resultados[k] && init[k] == ps[k];
        }
      }
    }
  }

  /** With every folder created, each person counts every selected template. */
  lemma {:induction false} ProcesarTodasCuenta(ps: seq<Persona>, opciones: OpcionesEjecucion, outputDir: string,
                                               config: seq<PlantillaConfig>, cache: map<string, Blob>, mundo: Mundo, s: Estado)
    requires forall k :: 0 <= k < |ps| ==> mundo.fallaDirectorio(k).None?
    ensures var r := ProcesarTodas(ps, opciones, outputDir, config, cache, mundo, s).resultados;
            |r| == |ps|
            && forall k :: 0 <= k < |r| ==> r[k].exitos + r[k].errores == |Seleccion(config, opciones.plantillasEspecificas)|
  {
    if ps != [] {
      var q := ProcesarTodas(ps[..|ps| - 1], opciones, outputDir, config, cache, mundo, s);
      ProcesarTodasCuenta(ps[..|ps| - 1], opciones, outputDir, config, cache, mundo, s);
      ProcesarPersonaTotal(ps[|ps| - 1], |ps| - 1, opciones, outputDir, config, cache, mundo, q.estado);
    }
  }

  // ----------------------------------------------------------------- a run

  /** The `reduce` totals of `ejecutar`. */
  function SumaExitos(rs: seq<ResultadoPersona>): nat {
    if rs == [] then 0 else SumaExitos(rs[..|rs| - 1]) + rs[|rs| - 1].exitos
  }

  function SumaErrores(rs: seq<ResultadoPersona>): nat {
    if rs == [] then 0 else SumaErrores(rs[..|rs| - 1]) + rs[|rs| - 1].errores
  }

  /** When every person counts c templates, the totals add up to |rs| * c. */
  lemma {:induction false} SumasUniformes(rs: seq<ResultadoPersona>, c: nat)
    requires forall k :: 0 <= k < |rs| ==> rs[k].exitos + rs[k].errores == c
    ensures SumaExitos(rs) + SumaErrores(rs) == |rs| * c
  {
    if rs != [] {
      SumasUniformes(rs[..|rs| - 1], c);
    }
  }

  /** The totals are bounded by the sum of what each person counts, and an
      error anywhere makes the error total positive. */
  lemma {:induction false} SumaErroresPositiva(rs: seq<ResultadoPersona>, k: nat)
    requires k < |rs| && rs[k].errores > 0
    ensures SumaErrores(rs) >= rs[k].errores > 0
  {
    if k < |rs| - 1 {
      SumaErroresPositiva(rs[..|rs| - 1], k);
    }
  }

  /** `obtenerPersonas` of the orchestrator: the persons the mode asks for.
      A range or a name that is absent, 0 or "" is an error. */
  function PersonasSegunModo(opciones: OpcionesEjecucion, filas: seq<Fila>): Result<seq<Persona>> {
    match opciones.modo
    case Todos => Ok(ObtenerPersonas(filas, Some(LIMITE_PERSONAS), None, None))
    case Rango =>
      if opciones.rangoInicio.None? || opciones.rangoInicio.value == 0 || opciones.rangoFin.None? || opciones.rangoFin.value == 0
      then Err("Rango no especificado correctamente")
      else Ok(ObtenerPersonas(filas, None, opciones.rangoInicio, opciones.rangoFin))
    case Especifico =>
      if opciones.nombreEspecifico.None? || opciones.nombreEspecifico.value == "" then Err("Nombre no especificado")
      else
        var encontrada := ObtenerPersonaPorNombre(filas, opciones.nombreEspecifico.value);
        if encontrada.Some? then Ok([encontrada.value]) else Ok([])
    case OtroModo(texto) => Err("Modo no válido: " + texto)
  }

  /** `todos` keeps at most LIMITE_PERSONAS persons; a valid range keeps the
      persons numbered inicio..min(fin, n), in order; a name gives at most one matching
      person; an unknown mode is an error naming it. */
  lemma PersonasSegunModoForma(opciones: OpcionesEjecucion, filas: seq<Fila>)
    ensures opciones.modo == Todos ==>
              var todas := TodasLasPersonas(filas);
              PersonasSegunModo(opciones, filas)
                == Ok(todas[..if LIMITE_PERSONAS < |todas| then LIMITE_PERSONAS else |todas|])
    ensures opciones.modo == Rango
            && (opciones.rangoInicio.None? || opciones.rangoInicio.value == 0
                || opciones.rangoFin.None? || opciones.rangoFin.value == 0) ==>
              PersonasSegunModo(opciones, filas) == Err("Rango no especificado correctamente")
    ensures opciones.modo == Rango && opciones.rangoInicio.Some? && opciones.rangoFin.Some?
            && opciones.rangoInicio.value >= 1 && opciones.rangoFin.value >= 1 ==>
              var r := PersonasSegunModo(opciones, filas);
              r.Ok? && TramoNumerado(r.value, TodasLasPersonas(filas), opciones.rangoInicio.value, opciones.rangoFin.value)
    ensures opciones.modo == Especifico && (opciones.nombreEspecifico.None? || opciones.nombreEspecifico.value == "") ==>
              PersonasSegunModo(opciones, filas) == Err("Nombre no especificado")
    ensures opciones.modo == Especifico && opciones.nombreEspecifico.Some? && opciones.nombreEspecifico.value != "" ==>
              var todas := TodasLasPersonas(filas);
              var n := opciones.nombreEspecifico.value;
              var r := PersonasSegunModo(opciones, filas);
              r.Ok? && |r.value| <= 1
              && (r.value == [] <==> forall k :: 0 <= k < |todas| ==> !CoincideNombre(todas[k], n))
              && (r.value != [] ==> exists k :: 0 <= k < |todas| && r.value[0] == todas[k] && CoincideNombre(todas[k], n)
                                       && forall j :: 0 <= j < k ==> !CoincideNombre(todas[j], n))
    ensures opciones.modo.OtroModo? ==> PersonasSegunModo(opciones, filas) == Err("Modo no válido: " + opciones.modo.texto)
  {
    if opciones.modo == Todos {
      ObtenerPersonasLimite(filas, Some(LIMITE_PERSONAS));
    }
    if opciones.modo == Rango && opciones.rangoInicio.Some? && opciones.rangoFin.Some?
       && opciones.rangoInicio.value >= 1 && opciones.rangoFin.value >= 1 {
      PersonasSegunModoRango(opciones, filas);
    }
  }

  /** A range with both bounds at least 1 keeps the persons numbered
      inicio..min(fin, n), in order. */
  lemma PersonasSegunModoRango(opciones: OpcionesEjecucion, filas: seq<Fila>)
    requires opciones.modo == Rango && opciones.rangoInicio.Some? && opciones.rangoFin.Some?
    requires opciones.rangoInicio.value >= 1 && opciones.rangoFin.value >= 1
    ensures var r := PersonasSegunModo(opciones, filas);
            r.Ok? && TramoNumerado(r.value, TodasLasPersonas(filas), opciones.rangoInicio.value, opciones.rangoFin.value)
  {
    var inicio := opciones.rangoInicio.value;
    var fin := opciones.rangoFin.value;
    assert PersonasSegunModo(opciones, filas) == Ok(ObtenerPersonas(filas, None, Some(inicio), Some(fin)));
    ObtenerPersonasRango(filas, None, inicio, fin);
  }

  /** `opciones.outputDir || CONFIG.OUTPUT_DIR`. */
  function CarpetaSalida(opciones: OpcionesEjecucion, defecto: string): string {
    if opciones.outputDir.Some? && opciones.outputDir.value != "" then opciones.outputDir.value else defecto
  }

  /** A run: its result, the template cache, the filesystem and the calls made. */
  datatype Corrida = Corrida(resultado: Result<ResultadoProceso>, cache: map<string, Blob>, estado: Estado, acciones: seq<Accion>)

  /** `ejecutar`: initialise (the converter binary when PDFs are wanted, the
      template preload), fetch the persons, refuse an empty list, create the
      output folder, process everyone and add up the counts. */
  function Ejecucion(opciones: OpcionesEjecucion, filas: seq<Fila>, config: seq<PlantillaConfig>, defecto: string,
                     mundo: Mundo, cache: map<string, Blob>, s: Estado): Corrida
  {
    if opciones.tipoSalida != SoloOriginales && SOFFICE_PATH !in s.archivos && SOFFICE_PATH !in s.directorios then
      Corrida(Err("LibreOffice es requerido para generar PDFs"), cache, s, [])
    else
      var q := Precargar(cache, Seleccion(config, opciones.plantillasEspecificas), s.archivos + s.directorios, mundo.leer);
      if q.cargadas == 0 then Corrida(Err("No se pudo cargar ninguna plantilla"), q.cache, s, [])
      else match PersonasSegunModo(opciones, filas)
        case Err(m) => Corrida(Err(m), q.cache, s, [])
        case Ok(ps) =>
          if ps == [] then Corrida(Err("No se encontraron personas para procesar"), q.cache, s, [])
          else
            var out := CarpetaSalida(opciones, defecto);
            match mundo.fallaSalida
            case Some(m) => Corrida(Err("No se pudo crear directorio " + out + ": " + m), q.cache, s, [])
            case None =>
              var rec := ProcesarTodas(ps, opciones, out, config, q.cache, mundo, Estado(s.archivos, s.directorios + {out}));
              Corrida(Ok(ResultadoProceso(SumaExitos(rec.resultados), SumaErrores(rec.resultados), |ps|, rec.resultados)),
                      q.cache, rec.estado, rec.acciones)
  }

  /** A run that completes has processed the persons of the mode, at least
      one of them, from the output folder, and its totals are the sums of
      the per-person details. */
  lemma EjecucionCompleta(opciones: OpcionesEjecucion, filas: seq<Fila>, config: seq<PlantillaConfig>, defecto: string,
                          mundo: Mundo, cache: map<string, Blob>, s: Estado)
    requires Ejecucion(opciones, filas, config, defecto, mundo, cache, s).resultado.Ok?
    ensures var ps := PersonasSegunModo(opciones, filas);
            var q := Precargar(cache, Seleccion(config, opciones.plantillasEspecificas), s.archivos + s.directorios, mundo.leer);
            var out := CarpetaSalida(opciones, defecto);
            var rs := ProcesarTodas(ps.value, opciones, out, config, q.cache, mundo, Estado(s.archivos, s.directorios + {out})).resultados;
            ps.Ok? && ps.value != []
            && Ejecucion(opciones, filas, config, defecto, mundo, cache, s).resultado.value
               == ResultadoProceso(SumaExitos(rs), SumaErrores(rs), |ps.value|, rs)
  {
    var q := Precargar(cache, Seleccion(config, opciones.plantillasEspecificas), s.archivos + s.directorios, mundo.leer);
    assert !(opciones.tipoSalida != SoloOriginales && SOFFICE_PATH !in s.archivos && SOFFICE_PATH !in s.directorios);
    assert q.cargadas != 0;
    var ps := PersonasSegunModo(opciones, filas);
    assert ps.Ok? && ps.value != [];
    assert mundo.fallaSalida.None?;
  }

  /** A completed run processed at least one person, has one detail per
      person in order, and its totals are the sums of the details; with
      every person's folder created, the totals account for every selected
      template of every person. An empty person list is an error. */
  lemma EjecucionTotales(opciones: OpcionesEjecucion, filas: seq<Fila>, config: seq<PlantillaConfig>, defecto: string,
                         mundo: Mundo, cache: map<string, Blob>, s: Estado)
    ensures var c := Ejecucion(opciones, filas, config, defecto, mundo, cache, s);
            (PersonasSegunModo(opciones, filas) == Ok([]) ==> c.resultado.Err?)
            && (c.resultado.Ok? ==>
                  var ps := PersonasSegunModo(opciones, filas);
                  var r := c.resultado.value;
                  ps.Ok? && |ps.value| >= 1 && r.personasProcesadas == |ps.value| == |r.detalles|
                  && (forall k :: 0 <= k < |r.detalles| ==> r.detalles[k].nombre == NombreVisible(ps.value[k]))
                  && r.exitos == SumaExitos(r.detalles) && r.errores == SumaErrores(r.detalles)
                  && ((forall k :: 0 <= k < |ps.value| ==> mundo.fallaDirectorio(k).None?) ==>
                        r.exitos + r.errores == |ps.value| * |Seleccion(config, opciones.plantillasEspecificas)|))
  {
    var c := Ejecucion(opciones, filas, config, defecto, mundo, cache, s);
    if c.resultado.Ok? {
      EjecucionCompleta(opciones, filas, config, defecto, mundo, cache, s);
      var q := Precargar(cache, Seleccion(config, opciones.plantillasEspecificas), s.archivos + s.directorios, mundo.leer);
      var ps := PersonasSegunModo(opciones, filas).value;
      var out := CarpetaSalida(opciones, defecto);
      var s1 := Estado(s.archivos, s.directorios + {out});
      var rs := ProcesarTodas(ps, opciones, out, config, q.cache, mundo, s1).resultados;
      assert c.resultado.value == ResultadoProceso(SumaExitos(rs), SumaErrores(rs), |ps|, rs);
      ProcesarTodasUnoPorPersona(ps, opciones, out, config, q.cache, mundo, s1);
      if forall k :: 0 <= k < |ps| ==> mundo.fallaDirectorio(k).None? {
        ProcesarTodasCuenta(ps, opciones, out, config, q.cache, mundo, s1);
        SumasUniformes(rs, |Seleccion(config, opciones.plantillasEspecificas)|);
      }
    }
  }

  lemma Asociativa(a: seq<Accion>, b: seq<Accion>, c: seq<Accion>)
    ensures (a + b) + c == a + (b + c)
  {
  }

  // ------------------------------------------------------------ the class

  /** The orchestrator, with the services it drives and the filesystem. */
  class ProcesadorPrincipal {
    const docGenerator: DocumentGenerator
    const pdfConverter: PDFConverter
    const disco: Disco
    const config: seq<PlantillaConfig>
    const salidaPorDefecto: string
    /** The calls made into the services so far. */
    ghost var acciones: seq<Accion>

    constructor (disco: Disco, raiz: string)
      ensures this.disco == disco && config == Plantillas(raiz) && salidaPorDefecto == DirectorioSalida(raiz)
      ensures fresh(docGenerator) && fresh(pdfConverter)
      ensures docGenerator.plantillaCache == map[] && !pdfConverter.procesoActivo && acciones == []
    {
      this.disco := disco;
      config := Plantillas(raiz);
      salidaPorDefecto := DirectorioSalida(raiz);
      docGenerator := new DocumentGenerator();
      pdfConverter := new PDFConverter();
      acciones := [];
    }

    /** One render, through the generator the template's type calls for. */
    method GenerarOriginal(persona: Persona, plantilla: PlantillaConfig, ruta: string, o: Oraculos,
                           motor: (Blob, DatosEnriquecidos) -> SalidaMotor)
      returns (r: Outcome)
      modifies this`acciones, disco`archivos
      ensures var g := Generacion(persona, plantilla, ruta, docGenerator.plantillaCache, o, motor, old(disco.archivos));
              r == g.resultado && disco.archivos == g.archivos && acciones == old(acciones) + g.acciones
    {
      acciones := acciones + [Renderizar(ruta)];
      if plantilla.tipo == Word {
        r := docGenerator.GenerarWord(persona, plantilla.nombre, ruta, o.entorno, motor, o.fallaEscritura, disco);
      } else {
        var libro := docGenerator.GenerarExcel(persona, plantilla.archivo, ruta, plantilla.nombre, o.libro, o.fallaEscritura, disco);
        r := if libro.Ok? then Pass else Fail(libro.error);
      }
    }

    /** `procesarPlantillaParaPersona`: a failure is the message of the
        service's error. */
    method ProcesarPlantillaParaPersona(persona: Persona, plantilla: PlantillaConfig, dirUsuario: string,
                                        tipoSalida: TipoSalida, o: Oraculos, motor: (Blob, DatosEnriquecidos) -> SalidaMotor)
      returns (r: Outcome)
      requires !pdfConverter.procesoActivo
      modifies this`acciones, disco`archivos, pdfConverter
      ensures !pdfConverter.procesoActivo
      ensures var e := PlantillaParaPersona(persona, plantilla, dirUsuario, tipoSalida, docGenerator.plantillaCache,
                                            o, motor, old(disco.archivos), disco.directorios);
              r == e.resultado && disco.archivos == e.archivos && acciones == old(acciones) + e.acciones
    {
      var archivoOriginal := RutaOriginal(dirUsuario, plantilla);
      ghost var g := Generacion(persona, plantilla, archivoOriginal, docGenerator.plantillaCache, o, motor, disco.archivos);
      if GeneraOriginal(tipoSalida) {
        r := GenerarOriginal(persona, plantilla, archivoOriginal, o, motor);
        if r.Fail? {
          return;
        }
      }
      if GeneraPdf(tipoSalida) {
        if tipoSalida == SoloPdf {
          r := GenerarOriginal(persona, plantilla, archivoOriginal, o, motor);
          if r.Fail? {
            return;
          }
        }
        assert acciones == old(acciones) + g.acciones && disco.archivos == g.archivos;
        Asociativa(old(acciones), g.acciones, [ConvertirPdf(archivoOriginal)]);
        acciones := acciones + [ConvertirPdf(archivoOriginal)];
        var pdf, _ := pdfConverter.ConvertirAPdf(archivoOriginal, dirUsuario, INTENTOS_CONVERSION, o.herramienta, disco);
        if pdf.Err? {
          return Fail(pdf.error);
        }
      }
      r := Pass;
    }

    /** `procesarPersonaIndividual` for person `i` of the list. */
    method ProcesarPersonaIndividual(persona: Persona, i: nat, opciones: OpcionesEjecucion, outputDir: string, mundo: Mundo)
      returns (r: ResultadoPersona)
      requires !pdfConverter.procesoActivo
      modifies this`acciones, disco, pdfConverter
      ensures !pdfConverter.procesoActivo
      ensures var p := ProcesarPersona(persona, i, opciones, outputDir, config, docGenerator.plantillaCache, mundo,
                                       Estado(old(disco.archivos), old(disco.directorios)));
              r == p.resultado && Estado(disco.archivos, disco.directorios) == p.estado && acciones == old(acciones) + p.acciones
    {
      var nombreBase := LimpiarNombre(persona.nombre);
      var dirUsuario := JuntarRuta(outputDir, nombreBase);
      r := ResultadoPersona(NombreVisible(persona), 0, 0, [], []);
      var creado := disco.CrearDirectorioSeguro(dirUsuario, mundo.fallaDirectorio(i));
      if creado.Fail? {
        r := r.(errores := r.errores + |config|, erroresDetallados := r.erroresDetallados + ["Error general: " + creado.error]);
        assert r.erroresDetallados == ["Error general: " + creado.error];
        assert acciones == old(acciones) + [];
        return;
      }
      r := ProcesarConCarpeta(persona, i, opciones, dirUsuario, mundo);
    }

    /** The templates of a person whose folder `dirUsuario` exists, then the
        cleanup in `solo-pdf`, which runs whatever the templates gave. */
    method ProcesarConCarpeta(persona: Persona, i: nat, opciones: OpcionesEjecucion, dirUsuario: string, mundo: Mundo)
      returns (r: ResultadoPersona)
      requires !pdfConverter.procesoActivo
      modifies this`acciones, disco`archivos, pdfConverter
      ensures !pdfConverter.procesoActivo
      ensures var p := PersonaConCarpeta(persona, i, opciones, dirUsuario, config, docGenerator.plantillaCache, mundo,
                                         Estado(old(disco.archivos), disco.directorios));
              r == p.resultado && disco.archivos == p.estado.archivos && acciones == old(acciones) + p.acciones
    {
      var sel := Seleccion(config, opciones.plantillasEspecificas);
      ghost var q := ProcesarPlantillas(sel, persona, i, dirUsuario, opciones.tipoSalida, docGenerator.plantillaCache, mundo,
                                        disco.archivos, disco.directorios);
      r := ProcesarSeleccion(persona, i, sel, dirUsuario, opciones.tipoSalida, mundo);
      if opciones.tipoSalida == SoloPdf {
        Asociativa(old(acciones), q.acciones, [Limpiar(dirUsuario)]);
        disco.LimpiarArchivosTemporales(dirUsuario, mundo.fallaUnlink, EXTENSIONES_ORIGINALES);
        acciones := acciones + [Limpiar(dirUsuario)];
      }
    }

    /** The loop of `procesarPersonaIndividual` over the selected templates:
        a failing template is counted and the loop goes on. */
    method ProcesarSeleccion(persona: Persona, i: nat, sel: seq<PlantillaConfig>, dirUsuario: string,
                             tipoSalida: TipoSalida, mundo: Mundo)
      returns (r: ResultadoPersona)
      requires !pdfConverter.procesoActivo
      modifies this`acciones, disco`archivos, pdfConverter
      ensures !pdfConverter.procesoActivo
      ensures var q := ProcesarPlantillas(sel, persona, i, dirUsuario, tipoSalida, docGenerator.plantillaCache, mundo,
                                          old(disco.archivos), disco.directorios);
              r == q.resultado && disco.archivos == q.archivos && acciones == old(acciones) + q.acciones
    {
      r := ResultadoPersona(NombreVisible(persona), 0, 0, [], []);
      for k := 0 to |sel|
        invariant !pdfConverter.procesoActivo
        invariant var q := ProcesarPlantillas(sel[..k], persona, i, dirUsuario, tipoSalida,
                                              docGenerator.plantillaCache, mundo, old(disco.archivos), disco.directorios);
                  r == q.resultado && disco.archivos == q.archivos && acciones == old(acciones) + q.acciones
      {
        r := ContarPlantilla(persona, i, sel, k, dirUsuario, tipoSalida, mundo, old(disco.archivos), old(acciones), r);
      }
      assert sel[..|sel|] == sel;
    }

    /** One iteration of the template loop: template k is processed, and a
        success or a failure is counted. */
    method ContarPlantilla(persona: Persona, i: nat, sel: seq<PlantillaConfig>, k: nat, dirUsuario: string,
                           tipoSalida: TipoSalida, mundo: Mundo, ghost archivos0: set<string>, ghost acciones0: seq<Accion>,
                           r0: ResultadoPersona)
      returns (r: ResultadoPersona)
      requires k < |sel| && !pdfConverter.procesoActivo
      requires var q := ProcesarPlantillas(sel[..k], persona, i, dirUsuario, tipoSalida,
                                           docGenerator.plantillaCache, mundo, archivos0, disco.directorios);
               r0 == q.resultado && disco.archivos == q.archivos && acciones == acciones0 + q.acciones
      modifies this`acciones, disco`archivos, pdfConverter
      ensures !pdfConverter.procesoActivo
      ensures var q := ProcesarPlantillas(sel[..k + 1], persona, i, dirUsuario, tipoSalida,
                                          docGenerator.plantillaCache, mundo, archivos0, disco.directorios);
              r == q.resultado && disco.archivos == q.archivos && acciones == acciones0 + q.acciones
    {
      var t := sel[k];
      ghost var q := ProcesarPlantillas(sel[..k], persona, i, dirUsuario, tipoSalida,
                                        docGenerator.plantillaCache, mundo, archivos0, disco.directorios);
      var res := ProcesarPlantillaParaPersona(persona, t, dirUsuario, tipoSalida, mundo.oraculos(i)(t.nombre), mundo.motor);
      ghost var e := PlantillaParaPersona(persona, t, dirUsuario, tipoSalida, docGenerator.plantillaCache,
                                          mundo.oraculos(i)(t.nombre), mundo.motor, q.archivos, disco.directorios);
      assert acciones == (acciones0 + q.acciones) + e.acciones;
      Asociativa(acciones0, q.acciones, e.acciones);
      ProcesarPlantillasPaso(sel, k, persona, i, dirUsuario, tipoSalida, docGenerator.plantillaCache, mundo,
                             archivos0, disco.directorios);
      r := r0;
      if res.Pass? {
        r := r.(exitos := r.exitos + 1, documentosGenerados := r.documentosGenerados + [t.nombre]);
      } else {
        r := r.(errores := r.errores + 1, erroresDetallados := r.erroresDetallados + [t.nombre + ": " + res.error]);
      }
      assert r == AnotarPlantilla(q.resultado, t.nombre, e.resultado);
    }

    /** `procesarPersonas`: one result per person, in order. */
    method ProcesarPersonas(personas: seq<Persona>, opciones: OpcionesEjecucion, outputDir: string, mundo: Mundo)
      returns (resultados: seq<ResultadoPersona>)
      requires !pdfConverter.procesoActivo
      modifies this`acciones, disco, pdfConverter
      ensures !pdfConverter.procesoActivo
      ensures var rec := ProcesarTodas(personas, opciones, outputDir, config, docGenerator.plantillaCache, mundo,
                                       Estado(old(disco.archivos), old(disco.directorios)));
              resultados == rec.resultados && Estado(disco.archivos, disco.directorios) == rec.estado
              && acciones == old(acciones) + rec.acciones
    {
      resultados := [];
      for i := 0 to |personas|
        invariant !pdfConverter.procesoActivo
        invariant var rec := ProcesarTodas(personas[..i], opciones, outputDir, config, docGenerator.plantillaCache, mundo,
                                           Estado(old(disco.archivos), old(disco.directorios)));
                  resultados == rec.resultados && Estado(disco.archivos, disco.directorios) == rec.estado
                  && acciones == old(acciones) + rec.acciones
      {
        ghost var rec := ProcesarTodas(personas[..i], opciones, outputDir, config, docGenerator.plantillaCache, mundo,
                                       Estado(old(disco.archivos), old(disco.directorios)));
        ghost var antes := acciones;
        assert antes == old(acciones) + rec.acciones;
        assert Estado(disco.archivos, disco.directorios) == rec.estado;
        var resultado := ProcesarPersonaIndividual(personas[i], i, opciones, outputDir, mundo);
        ghost var p := ProcesarPersona(personas[i], i, opciones, outputDir, config, docGenerator.plantillaCache, mundo, rec.estado);
        assert acciones == antes + p.acciones;
        Asociativa(old(acciones), rec.acciones, p.acciones);
        ProcesarTodasPaso(personas, i, opciones, outputDir, config, docGenerator.plantillaCache, mundo,
                          Estado(old(disco.archivos), old(disco.directorios)));
        resultados := resultados + [resultado];
      }
      assert personas[..|personas|] == personas;
    }

    /** `ejecutar` on the given rows of the data source. */
    method Ejecutar(opciones: OpcionesEjecucion, filas: seq<Fila>, mundo: Mundo) returns (r: Result<ResultadoProceso>)
      requires !pdfConverter.procesoActivo
      modifies this`acciones, disco, pdfConverter, docGenerator
      ensures !pdfConverter.procesoActivo
      ensures var c := Ejecucion(opciones, filas, config, salidaPorDefecto, mundo, old(docGenerator.plantillaCache),
                                 Estado(old(disco.archivos), old(disco.directorios)));
              r == c.resultado && docGenerator.plantillaCache == c.cache
              && Estado(disco.archivos, disco.directorios) == c.estado && acciones == old(acciones) + c.acciones
    {
      if opciones.tipoSalida != SoloOriginales {
        var libreOfficeOk := pdfConverter.VerificarLibreOffice(disco);
        if !libreOfficeOk {
          return Err("LibreOffice es requerido para generar PDFs");
        }
      }
      var precarga, _, _ := docGenerator.PrecargarPlantillas(config, opciones.plantillasEspecificas,
                                                             disco.archivos + disco.directorios, mundo.leer);
      if precarga.Fail? {
        return Err(precarga.error);
      }
      var personas := PersonasSegunModo(opciones, filas);
      if personas.Err? {
        return Err(personas.error);
      }
      if personas.value == [] {
        return Err("No se encontraron personas para procesar");
      }
      var outputDir := CarpetaSalida(opciones, salidaPorDefecto);
      var creado := disco.CrearDirectorioSeguro(outputDir, mundo.fallaSalida);
      if creado.Fail? {
        return Err(creado.error);
      }
      var resultados := ProcesarPersonas(personas.value, opciones, outputDir, mundo);
      r := Ok(ResultadoProceso(SumaExitos(resultados), SumaErrores(resultados), |personas.value|, resultados));
    }
  }
}
