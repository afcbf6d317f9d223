/** The PDF conversion driver (src/services/pdfConverter.ts). Each run of the
    external converter is an `Intento`, the way that run ended; the busy flag
    `procesoActivo` is held while attempts run. */
module Conversor {
  import opened Cadenas
  import opened Tipos
  import opened Archivos

  /** How one run of the converter ends: it exits (with its code, or none
      when a signal stopped it; its stderr and stdout; whether it wrote the
      PDF), it cannot be started, or the time limit fires first. */
  datatype Intento =
    | Salida(codigo: Option<int>, stderr: string, stdout: string, escribioPdf: bool)
    | ErrorSpawn(mensaje: string)
    | Tiempo

  // ----------------------------------------------------------------- paths

  /** The path without its trailing slashes. */
  function SinBarrasFinales(p: string): (r: string)
    ensures |r| <= |p| && r == p[..|r|]
    ensures r == [] || r[|r| - 1] != '/'
  {
    if p != [] && p[|p| - 1] == '/' then SinBarrasFinales(p[..|p| - 1]) else p
  }

  /** `path.basename` (POSIX): what follows the last '/'. */
  function Basename(p: string): (r: string)
    ensures '/' !in r
  {
    var q := SinBarrasFinales(p);
    match UltimoIndiceDe(q, '/')
    case None => q
    case Some(k) => q[k + 1..]
  }

  /** `path.extname` (POSIX): from the last '.' of the base name on, or ""
      when there is no '.', when the only '.' opens the name, or for "..". */
  function Extname(p: string): string {
    ExtensionDeBase(Basename(p))
  }

  /** The extension of a base name. */
  function ExtensionDeBase(b: string): (r: string)
    ensures r == [] || (r[0] == '.' && |r| < |b| && r == b[|b| - |r|..])
  {
    match UltimoIndiceDe(b, '.')
    case None => ""
    case Some(k) => if k == 0 || b == ".." then "" else b[k..]
  }

  /** `path.basename(p, path.extname(p))`. */
  function NombreSinExtension(p: string): string {
    var b := Basename(p);
    b[..|b| - |Extname(p)|]
  }

  /** The output path of a conversion: `outputDir/<name without extension>.pdf`. */
  function RutaPdf(inputPath: string, outputDir: string): string {
    JuntarRuta(outputDir, NombreSinExtension(inputPath) + ".pdf")
  }

  /** The base name of `dir/b` is b. */
  lemma BasenameDe(dir: string, b: string)
    requires b != [] && '/' !in b
    ensures Basename(dir + "/" + b) == b
  {
    var p := dir + "/" + b;
    assert p == (dir + "/") + b;
    assert p[|p| - 1] == b[|b| - 1];
    assert SinBarrasFinales(p) == p;
    assert p[|dir|] == '/';
    assert p[|dir| + 1..] == b;
    UltimoIndiceDeUnico(p, '/', |dir|);
  }

  /** A name without '.' has no extension. */
  lemma ExtensionSinPunto(b: string)
    requires '.' !in b
    ensures ExtensionDeBase(b) == ""
  {
  }

  /** The extension of `stem + ext`, for a plain extension, is ext. */
  lemma ExtensionDe(stem: string, ext: string)
    requires stem != []
    requires |ext| >= 1 && ext[0] == '.' && '.' !in ext[1..]
    requires !(stem == "." && ext == ".")
    ensures ExtensionDeBase(stem + ext) == ext
  {
    var b := stem + ext;
    var k := |stem|;
    assert b[k] == '.';
    assert b[k + 1..] == ext[1..];
    UltimoIndiceDeUnico(b, '.', k);
    assert b[k..] == ext;
    assert |b| == 2 ==> b == [stem[0], ext[0]];
  }

  /** A name whose only '.' opens it has no extension. */
  lemma ExtensionOculto(nombre: string)
    requires '.' !in nombre
    ensures ExtensionDeBase("." + nombre) == ""
  {
    var b := "." + nombre;
    assert b[1..] == nombre;
    UltimoIndiceDeUnico(b, '.', 0);
  }

  /** For an input `dir/stem.ext` with a plain extension, the base name, the
      extension and the name without extension are recovered, and the PDF
      goes to `outputDir/stem.pdf`. */
  lemma RutaPdfCompone(dir: string, stem: string, ext: string, outputDir: string)
    requires '/' !in stem && stem != []
    requires |ext| >= 1 && ext[0] == '.' && '/' !in ext && '.' !in ext[1..]
    requires !(stem == "." && ext == ".")
    ensures Basename(dir + "/" + stem + ext) == stem + ext
    ensures Extname(dir + "/" + stem + ext) == ext
    ensures NombreSinExtension(dir + "/" + stem + ext) == stem
    ensures RutaPdf(dir + "/" + stem + ext, outputDir) == JuntarRuta(outputDir, stem + ".pdf")
  {
    var b := stem + ext;
    assert '/' !in b by {
      assert forall i :: 0 <= i < |stem| ==> b[i] == stem[i];
      assert forall i :: |stem| <= i < |b| ==> b[i] == ext[i - |stem|];
    }
    assert dir + "/" + stem + ext == dir + "/" + b;
    BasenameDe(dir, b);
    ExtensionDe(stem, ext);
    assert b[..|b| - |ext|] == stem;
  }

  /** The extensions the converter accepts (`obtenerExtensionesValidas`). */
  const EXTENSIONES_VALIDAS: seq<string> := [".docx", ".xlsx", ".doc", ".xls", ".odt", ".ods", ".rtf", ".txt"]

  /** `esArchivoConvertible`: the lower-cased extension is one of the valid ones. */
  function EsArchivoConvertible(archivo: string): (r: bool)
    ensures r ==> Extname(archivo) != ""
  {
    Minusculas(Extname(archivo)) in EXTENSIONES_VALIDAS
  }

  /** A plain `dir/stem.ext` is convertible exactly when the lower-cased
      extension is listed; a name without extension never is. */
  lemma EsArchivoConvertibleSii(dir: string, stem: string, ext: string)
    requires '/' !in stem && stem != []
    requires |ext| >= 1 && ext[0] == '.' && '/' !in ext && '.' !in ext[1..]
    requires !(stem == "." && ext == ".")
    ensures EsArchivoConvertible(dir + "/" + stem + ext) <==> Minusculas(ext) in EXTENSIONES_VALIDAS
    ensures '.' !in stem ==> !EsArchivoConvertible(dir + "/" + stem)
  {
    RutaPdfCompone(dir, stem, ext, "");
    assert Minusculas("") == "";
    BasenameDe(dir, stem);
    if '.' !in stem {
      ExtensionSinPunto(stem);
    }
  }

  /** A dot file such as ".docx" has no extension, so it is not convertible. */
  lemma ArchivoOcultoNoConvertible(dir: string, nombre: string)
    requires '/' !in nombre && '.' !in nombre
    ensures !EsArchivoConvertible(dir + "/." + nombre)
  {
    var b := "." + nombre;
    assert '/' !in b by {
      assert forall i :: 1 <= i < |b| ==> b[i] == nombre[i - 1];
    }
    assert dir + "/." + nombre == dir + "/" + b;
    BasenameDe(dir, b);
    ExtensionOculto(nombre);
    assert Minusculas("") == "";
  }

  // --------------------------------------------------------------- attempts

  /** The exit code as a template literal renders it. */
  function CodigoTexto(codigo: Option<int>): string {
    match codigo
    case None => "null"
    case Some(c) => IntACadena(c)
  }

  /** The message of a nonzero exit: stderr, else stdout, else the code. */
  function MensajeFallo(codigo: Option<int>, stderr: string, stdout: string): string {
    "❌ LibreOffice falló: " + (if stderr != "" then stderr else if stdout != "" then stdout else "Código de salida: " + CodigoTexto(codigo))
  }

  /** One attempt (`ejecutarConversion`) whose PDF is `pdfPath`: its result
      and the files on disk afterwards. It succeeds only on exit code 0 with
      the PDF present. */
  function Clasificar(intento: Intento, inputPath: string, pdfPath: string,
                      archivos: set<string>, directorios: set<string>): (r: Paso)
    ensures r.resultado.Ok? <==> intento.Salida? && intento.codigo == Some(0)
                                 && (pdfPath in r.archivos || pdfPath in directorios)
    ensures r.resultado.Ok? ==> r.resultado.value == pdfPath
    ensures r.archivos == if intento.Salida? && intento.escribioPdf then archivos + {pdfPath} else archivos
  {
    match intento
    case Tiempo => Paso(Err("⏰ Timeout convirtiendo: " + Basename(inputPath)), archivos)
    case ErrorSpawn(m) => Paso(Err("❌ Error ejecutando LibreOffice: " + m), archivos)
    case Salida(codigo, stderr, stdout, escribio) =>
      var a := if escribio then archivos + {pdfPath} else archivos;
      if codigo == Some(0) then
        Paso(if pdfPath in a || pdfPath in directorios then Ok(pdfPath) else Err("PDF no se generó en: " + pdfPath), a)
      else Paso(Err(MensajeFallo(codigo, stderr, stdout)), a)
  }

  /** The result of one attempt and the files after it. */
  datatype Paso = Paso(resultado: Result<string>, archivos: set<string>)

  /** A whole conversion: its result, the attempts run and the files after. */
  datatype Conversion = Conversion(resultado: Result<string>, intentos: nat, archivos: set<string>)

  /** Attempts `intento`..`n`: stop at the first success, rethrow the error
      of attempt n, and fail generically when no attempt is left. */
  function Reintentar(intento: int, n: int, herramienta: int -> Intento, inputPath: string, pdfPath: string,
                      archivos: set<string>, directorios: set<string>): Conversion
    decreases n - intento
  {
    if intento > n then Conversion(Err("Todos los intentos de conversión fallaron"), 0, archivos)
    else
      var paso := Clasificar(herramienta(intento), inputPath, pdfPath, archivos, directorios);
      if paso.resultado.Ok? || intento == n then Conversion(paso.resultado, 1, paso.archivos)
      else
        var c := Reintentar(intento + 1, n, herramienta, inputPath, pdfPath, paso.archivos, directorios);
        Conversion(c.resultado, c.intentos + 1, c.archivos)
  }

  /** `convertirAPdf`: a missing input fails before any attempt. */
  function Convertir(inputPath: string, outputDir: string, n: int, herramienta: int -> Intento,
                     archivos: set<string>, directorios: set<string>): (c: Conversion)
    ensures inputPath !in archivos && inputPath !in directorios ==>
              c == Conversion(Err("Archivo no encontrado: " + inputPath), 0, archivos)
  {
    if inputPath !in archivos && inputPath !in directorios then Conversion(Err("Archivo no encontrado: " + inputPath), 0, archivos)
    else Reintentar(1, n, herramienta, inputPath, RutaPdf(inputPath, outputDir), archivos, directorios)
  }

  /** Attempts run from `intento` to at most n, and all of them when the
      conversion fails with attempts left. */
  lemma {:induction false} ReintentarCotas(intento: int, n: int, herramienta: int -> Intento, inputPath: string,
                                           pdfPath: string, archivos: set<string>, directorios: set<string>)
    ensures var c := Reintentar(intento, n, herramienta, inputPath, pdfPath, archivos, directorios);
            (intento > n ==> c.intentos == 0 && c.resultado == Err("Todos los intentos de conversión fallaron") && c.archivos == archivos)
            && (intento <= n ==> 1 <= c.intentos <= n - intento + 1)
            && (c.resultado.Err? && intento <= n ==> c.intentos == n - intento + 1)
    decreases n - intento
  {
    if intento <= n {
      var paso := Clasificar(herramienta(intento), inputPath, pdfPath, archivos, directorios);
      if !(paso.resultado.Ok? || intento == n) {
        ReintentarCotas(intento + 1, n, herramienta, inputPath, pdfPath, paso.archivos, directorios);
      }
    }
  }

  /** A success returns the PDF path, and the PDF then exists. */
  lemma {:induction false} ReintentarExito(intento: int, n: int, herramienta: int -> Intento, inputPath: string,
                                           pdfPath: string, archivos: set<string>, directorios: set<string>)
    ensures var c := Reintentar(intento, n, herramienta, inputPath, pdfPath, archivos, directorios);
            c.resultado.Ok? ==> c.resultado.value == pdfPath && (pdfPath in c.archivos || pdfPath in directorios)
    decreases n - intento
  {
    if intento <= n {
      var paso := Clasificar(herramienta(intento), inputPath, pdfPath, archivos, directorios);
      if !(paso.resultado.Ok? || intento == n) {
        ReintentarExito(intento + 1, n, herramienta, inputPath, pdfPath, paso.archivos, directorios);
      }
    }
  }

  /** One step of the retry loop: the attempt's own result when it succeeds
      or is the last, otherwise the remaining attempts with one more counted. */
  lemma ReintentarUnPaso(intento: int, n: int, herramienta: int -> Intento, inputPath: string,
                         pdfPath: string, archivos: set<string>, directorios: set<string>)
    requires intento <= n
    ensures var paso := Clasificar(herramienta(intento), inputPath, pdfPath, archivos, directorios);
            var c := Reintentar(intento, n, herramienta, inputPath, pdfPath, archivos, directorios);
            (paso.resultado.Ok? || intento == n ==> c == Conversion(paso.resultado, 1, paso.archivos))
            && (!(paso.resultado.Ok? || intento == n) ==>
                  var resto := Reintentar(intento + 1, n, herramienta, inputPath, pdfPath, paso.archivos, directorios);
                  c == Conversion(resto.resultado, resto.intentos + 1, resto.archivos))
  {
  }

  /** An attempt that does not write the PDF. */
  predicate NoEscribe(x: Intento) {
    !(x.Salida? && x.escribioPdf)
  }

  /** With the PDF absent and no earlier attempt writing it, the first
      attempt that exits 0 after writing it is the one that returns, after
      exactly that many attempts. */
  lemma {:induction false} PrimerExito(intento: int, k: int, n: int, herramienta: int -> Intento, inputPath: string,
                                       pdfPath: string, archivos: set<string>, directorios: set<string>)
    requires intento <= k <= n
    requires pdfPath !in archivos && pdfPath !in directorios
    requires forall j :: intento <= j < k ==> NoEscribe(herramienta(j))
    requires herramienta(k).Salida? && herramienta(k).codigo == Some(0) && herramienta(k).escribioPdf
    ensures var c := Reintentar(intento, n, herramienta, inputPath, pdfPath, archivos, directorios);
            c.resultado == Ok(pdfPath) && c.intentos == k - intento + 1 && c.archivos == archivos + {pdfPath}
    decreases k - intento
  {
    var paso := Clasificar(herramienta(intento), inputPath, pdfPath, archivos, directorios);
    if intento < k {
      assert NoEscribe(herramienta(intento));
      assert paso.archivos == archivos;
      assert paso.resultado.Err?;
      PrimerExito(intento + 1, k, n, herramienta, inputPath, pdfPath, archivos, directorios);
    } else {
      assert paso.resultado == Ok(pdfPath);
    }
  }

  /** The error of attempt x when its PDF is absent and x does not write it. */
  function ErrorIntento(x: Intento, inputPath: string, pdfPath: string): string {
    match x
    case Tiempo => "⏰ Timeout convirtiendo: " + Basename(inputPath)
    case ErrorSpawn(m) => "❌ Error ejecutando LibreOffice: " + m
    case Salida(codigo, stderr, stdout, _) =>
      if codigo == Some(0) then "PDF no se generó en: " + pdfPath
      else MensajeFallo(codigo, stderr, stdout)
  }

  /** When no attempt writes the absent PDF, all n attempts run and the last
      one's error is the result; the files are untouched. */
  lemma {:induction false} TodosFallan(intento: int, n: int, herramienta: int -> Intento, inputPath: string,
                                       pdfPath: string, archivos: set<string>, directorios: set<string>)
    requires intento <= n
    requires pdfPath !in archivos && pdfPath !in directorios
    requires forall j :: intento <= j <= n ==> NoEscribe(herramienta(j))
    ensures var c := Reintentar(intento, n, herramienta, inputPath, pdfPath, archivos, directorios);
            c.resultado == Err(ErrorIntento(herramienta(n), inputPath, pdfPath))
            && c.intentos == n - intento + 1 && c.archivos == archivos
    decreases n - intento
  {
    var paso := Clasificar(herramienta(intento), inputPath, pdfPath, archivos, directorios);
    assert NoEscribe(herramienta(intento));
    assert paso.archivos == archivos;
    assert paso.resultado.Err?;
    if intento < n {
      TodosFallan(intento + 1, n, herramienta, inputPath, pdfPath, archivos, directorios);
    }
  }

  /** With an existing input: n <= 0 runs no attempt and fails generically;
      n >= 1 runs between 1 and n attempts, all n when it fails; a success
      is `outputDir/<name>.pdf`, which then exists. */
  lemma ConvertirCotas(inputPath: string, outputDir: string, n: int, herramienta: int -> Intento,
                      archivos: set<string>, directorios: set<string>)
    requires inputPath in archivos || inputPath in directorios
    ensures var c := Convertir(inputPath, outputDir, n, herramienta, archivos, directorios);
            (n <= 0 ==> c == Conversion(Err("Todos los intentos de conversión fallaron"), 0, archivos))
            && (n >= 1 ==> 1 <= c.intentos <= n)
            && (n >= 1 && c.resultado.Err? ==> c.intentos == n)
            && (c.resultado.Ok? ==> c.resultado.value == RutaPdf(inputPath, outputDir)
                                    && (c.resultado.value in c.archivos || c.resultado.value in directorios))
  {
    var pdf := RutaPdf(inputPath, outputDir);
    ReintentarCotas(1, n, herramienta, inputPath, pdf, archivos, directorios);
    ReintentarExito(1, n, herramienta, inputPath, pdf, archivos, directorios);
  }

  // ------------------------------------------------------------ the batch

  /** The outcome of `convertirMultiplesArchivos`, and the files after it. */
  datatype Lote = Lote(exitosos: seq<string>, fallidos: seq<(string, string)>, archivos: set<string>)

  /** Records one conversion of `entrada` in the batch outcome. */
  function Anotar(q: Lote, entrada: string, c: Conversion): Lote {
    if c.resultado.Ok? then Lote(q.exitosos + [c.resultado.value], q.fallidos, c.archivos)
    else Lote(q.exitosos, q.fallidos + [(entrada, c.resultado.error)], c.archivos)
  }

  /** Converts each input in turn with the default number of attempts;
      `herramienta(i)` gives the runs for input i. */
  function ConvertirLote(entradas: seq<string>, outputDir: string, herramienta: nat -> int -> Intento,
                         archivos: set<string>, directorios: set<string>): Lote
  {
    if entradas == [] then Lote([], [], archivos)
    else
      var i := |entradas| - 1;
      var q := ConvertirLote(entradas[..i], outputDir, herramienta, archivos, directorios);
      Anotar(q, entradas[i], Convertir(entradas[i], outputDir, INTENTOS_CONVERSION, herramienta(i), q.archivos, directorios))
  }

  /** A successful conversion returns the input's PDF path. */
  lemma ConvertirExito(inputPath: string, outputDir: string, n: int, herramienta: int -> Intento,
                       archivos: set<string>, directorios: set<string>)
    ensures var c := Convertir(inputPath, outputDir, n, herramienta, archivos, directorios);
            c.resultado.Ok? ==> c.resultado.value == RutaPdf(inputPath, outputDir)
  {
    ReintentarExito(1, n, herramienta, inputPath, RutaPdf(inputPath, outputDir), archivos, directorios);
  }

  /** The conversion of input i: the default attempts with its own runs, on
      the files the inputs before it have left. */
  function ConversionDe(entradas: seq<string>, i: nat, outputDir: string, herramienta: nat -> int -> Intento,
                        archivos: set<string>, directorios: set<string>): Conversion
    requires i < |entradas|
  {
    Convertir(entradas[i], outputDir, INTENTOS_CONVERSION, herramienta(i),
              ConvertirLote(entradas[..i], outputDir, herramienta, archivos, directorios).archivos, directorios)
  }

  /** The first k values of `f`, in order. */
  function Tabla<T>(f: nat -> T, k: nat): (r: seq<T>)
    ensures |r| == k
  {
    if k == 0 then [] else Tabla(f, k - 1) + [f(k - 1)]
  }

  /** Position i of the table holds `f(i)`. */
  lemma {:induction false} TablaIndice<T>(f: nat -> T, k: nat, i: nat)
    requires i < k
    ensures Tabla(f, k)[i] == f(i)
  {
    if i < k - 1 {
      TablaIndice(f, k - 1, i);
    }
  }

  /** Input j's own result; positions past the inputs are never read. */
  function Resultados(entradas: seq<string>, outputDir: string, herramienta: nat -> int -> Intento,
                      archivos: set<string>, directorios: set<string>): nat -> Result<string>
  {
    (j: nat) => if j < |entradas| then ConversionDe(entradas, j, outputDir, herramienta, archivos, directorios).resultado
                else Err("")
  }

  /** The results of the first k inputs, in input order. */
  function ResultadosHasta(entradas: seq<string>, k: nat, outputDir: string, herramienta: nat -> int -> Intento,
                           archivos: set<string>, directorios: set<string>): (r: seq<Result<string>>)
    requires k <= |entradas|
    ensures |r| == k
  {
    Tabla(Resultados(entradas, outputDir, herramienta, archivos, directorios), k)
  }

  /** Position i of the results is input i's own result. */
  lemma ResultadosHastaIndice(entradas: seq<string>, k: nat, i: nat, outputDir: string,
                              herramienta: nat -> int -> Intento, archivos: set<string>, directorios: set<string>)
    requires i < k <= |entradas|
    ensures ResultadosHasta(entradas, k, outputDir, herramienta, archivos, directorios)[i]
            == ConversionDe(entradas, i, outputDir, herramienta, archivos, directorios).resultado
  {
    TablaIndice(Resultados(entradas, outputDir, herramienta, archivos, directorios), k, i);
  }

  /** The values of the successful results, in order. */
  function Exitos(rs: seq<Result<string>>): seq<string> {
    if rs == [] then []
    else Exitos(rs[..|rs| - 1]) + (if rs[|rs| - 1].Ok? then [rs[|rs| - 1].value] else [])
  }

  /** Every successful result has its value among the successes. */
  lemma {:induction false} ExitosContiene(rs: seq<Result<string>>, i: nat)
    requires i < |rs| && rs[i].Ok?
    ensures rs[i].value in Exitos(rs)
  {
    var p := rs[..|rs| - 1];
    if i < |rs| - 1 {
      assert p[i] == rs[i];
      ExitosContiene(p, i);
    }
  }

  /** The PDF paths of the first k inputs that converted, in input order. */
  function ExitososHasta(entradas: seq<string>, k: nat, outputDir: string, herramienta: nat -> int -> Intento,
                         archivos: set<string>, directorios: set<string>): seq<string>
    requires k <= |entradas|
  {
    Exitos(ResultadosHasta(entradas, k, outputDir, herramienta, archivos, directorios))
  }

  /** The first k inputs that failed, each with its error, in input order. */
  function FallidosHasta(entradas: seq<string>, k: nat, outputDir: string, herramienta: nat -> int -> Intento,
                         archivos: set<string>, directorios: set<string>): seq<(string, string)>
    requires k <= |entradas|
  {
    if k == 0 then []
    else
      var c := ConversionDe(entradas, k - 1, outputDir, herramienta, archivos, directorios);
      FallidosHasta(entradas, k - 1, outputDir, herramienta, archivos, directorios)
        + (if c.resultado.Err? then [(entradas[k - 1], c.resultado.error)] else [])
  }

  /** The batch over the first k inputs lists them in input order, each
      input by its own outcome. */
  lemma {:induction false} ConvertirLoteEnOrden(entradas: seq<string>, k: nat, outputDir: string, herramienta: nat -> int -> Intento,
                                                archivos: set<string>, directorios: set<string>)
    requires k <= |entradas|
    ensures var l := ConvertirLote(entradas[..k], outputDir, herramienta, archivos, directorios);
            l.exitosos == ExitososHasta(entradas, k, outputDir, herramienta, archivos, directorios)
            && l.fallidos == FallidosHasta(entradas, k, outputDir, herramienta, archivos, directorios)
  {
    if k > 0 {
      ConvertirLoteEnOrden(entradas, k - 1, outputDir, herramienta, archivos, directorios);
      var p := entradas[..k];
      assert p[..k - 1] == entradas[..k - 1];
      assert p[k - 1] == entradas[k - 1];
      var rs := ResultadosHasta(entradas, k, outputDir, herramienta, archivos, directorios);
      assert rs[..k - 1] == ResultadosHasta(entradas, k - 1, outputDir, herramienta, archivos, directorios);
      assert rs[k - 1] == ConversionDe(entradas, k - 1, outputDir, herramienta, archivos, directorios).resultado;
    }
  }

  /** Input i, for i < k, is listed with its error among the first k
      failures when its own conversion fails. */
  lemma {:induction false} FallidosHastaContiene(entradas: seq<string>, k: nat, i: nat, outputDir: string,
                                                 herramienta: nat -> int -> Intento, archivos: set<string>, directorios: set<string>)
    requires i < k <= |entradas|
    requires ConversionDe(entradas, i, outputDir, herramienta, archivos, directorios).resultado.Err?
    ensures (entradas[i], ConversionDe(entradas, i, outputDir, herramienta, archivos, directorios).resultado.error)
              in FallidosHasta(entradas, k, outputDir, herramienta, archivos, directorios)
  {
    var antes := FallidosHasta(entradas, k - 1, outputDir, herramienta, archivos, directorios);
    var c := ConversionDe(entradas, k - 1, outputDir, herramienta, archivos, directorios);
    assert FallidosHasta(entradas, k, outputDir, herramienta, archivos, directorios)
           == antes + (if c.resultado.Err? then [(entradas[k - 1], c.resultado.error)] else []);
    if i < k - 1 {
      FallidosHastaContiene(entradas, k - 1, i, outputDir, herramienta, archivos, directorios);
    }
  }

  /** Every input is listed: its PDF path among the successes when its own
      conversion succeeds, itself with its error among the failures otherwise. */
  lemma ConvertirLoteCadaEntrada(entradas: seq<string>, i: nat, outputDir: string, herramienta: nat -> int -> Intento,
                                 archivos: set<string>, directorios: set<string>)
    requires i < |entradas|
    ensures var l := ConvertirLote(entradas, outputDir, herramienta, archivos, directorios);
            var c := ConversionDe(entradas, i, outputDir, herramienta, archivos, directorios);
            (c.resultado.Ok? ==> RutaPdf(entradas[i], outputDir) in l.exitosos)
            && (c.resultado.Err? ==> (entradas[i], c.resultado.error) in l.fallidos)
  {
    var q := ConvertirLote(entradas[..i], outputDir, herramienta, archivos, directorios);
    ConvertirExito(entradas[i], outputDir, INTENTOS_CONVERSION, herramienta(i), q.archivos, directorios);
    ConvertirLoteEnOrden(entradas, |entradas|, outputDir, herramienta, archivos, directorios);
    assert entradas[..|entradas|] == entradas;
    if ConversionDe(entradas, i, outputDir, herramienta, archivos, directorios).resultado.Ok? {
      ResultadosHastaIndice(entradas, |entradas|, i, outputDir, herramienta, archivos, directorios);
      ExitosContiene(ResultadosHasta(entradas, |entradas|, outputDir, herramienta, archivos, directorios), i);
    } else {
      FallidosHastaContiene(entradas, |entradas|, i, outputDir, herramienta, archivos, directorios);
    }
  }

  /** Every input ends up on exactly one side, in input order: the failures
      carry their inputs and the successes their PDF paths. */
  lemma {:induction false} ConvertirLoteParticion(entradas: seq<string>, outputDir: string, herramienta: nat -> int -> Intento,
                                                  archivos: set<string>, directorios: set<string>)
    ensures var l := ConvertirLote(entradas, outputDir, herramienta, archivos, directorios);
            |l.exitosos| + |l.fallidos| == |entradas|
            && (forall k :: 0 <= k < |l.fallidos| ==> l.fallidos[k].0 in entradas)
            && (forall k :: 0 <= k < |l.exitosos| ==> exists i :: 0 <= i < |entradas| && l.exitosos[k] == RutaPdf(entradas[i], outputDir))
            && l.exitosos == ExitososHasta(entradas, |entradas|, outputDir, herramienta, archivos, directorios)
            && l.fallidos == FallidosHasta(entradas, |entradas|, outputDir, herramienta, archivos, directorios)
  {
    if entradas != [] {
      var i := |entradas| - 1;
      var p := entradas[..i];
      ConvertirLoteParticion(p, outputDir, herramienta, archivos, directorios);
      var q := ConvertirLote(p, outputDir, herramienta, archivos, directorios);
      var c := Convertir(entradas[i], outputDir, INTENTOS_CONVERSION, herramienta(i), q.archivos, directorios);
      ConvertirExito(entradas[i], outputDir, INTENTOS_CONVERSION, herramienta(i), q.archivos, directorios);
      var l := Anotar(q, entradas[i], c);
      assert l == ConvertirLote(entradas, outputDir, herramienta, archivos, directorios);
      assert |l.exitosos| + |l.fallidos| == |entradas|;
      forall k | 0 <= k < |l.exitosos| ensures exists j :: 0 <= j < |entradas| && l.exitosos[k] == RutaPdf(entradas[j], outputDir) {
        if k < |q.exitosos| {
          var j :| 0 <= j < |p| && q.exitosos[k] == RutaPdf(p[j], outputDir);
          assert p[j] == entradas[j];
          assert l.exitosos[k] == RutaPdf(entradas[j], outputDir);
        } else {
          assert l.exitosos[k] == RutaPdf(entradas[i], outputDir);
        }
      }
      forall k | 0 <= k < |l.fallidos| ensures l.fallidos[k].0 in entradas {
        if k < |q.fallidos| {
          var e := q.fallidos[k].0;
          assert e in p;
          var j :| 0 <= j < |p| && p[j] == e;
          assert entradas[j] == e;
        } else {
          assert l.fallidos[k].0 == entradas[i];
        }
      }
    }
    ConvertirLoteEnOrden(entradas, |entradas|, outputDir, herramienta, archivos, directorios);
    assert entradas[..|entradas|] == entradas;
  }

  /** The converter, with its busy flag. */
  class PDFConverter {
    var procesoActivo: bool

    constructor ()
      ensures !procesoActivo
    {
      procesoActivo := false;
    }

    /** `verificarLibreOffice`: the converter binary exists. */
    method VerificarLibreOffice(disco: Disco) returns (r: bool)
      ensures r <==> SOFFICE_PATH in disco.archivos || SOFFICE_PATH in disco.directorios
    {
      r := SOFFICE_PATH in disco.archivos || SOFFICE_PATH in disco.directorios;
    }

    /** `ejecutarConversion`: one run of the converter, only while the flag is held. */
    method EjecutarConversion(inputPath: string, outputDir: string, intento: Intento, disco: Disco)
      returns (r: Result<string>)
      requires procesoActivo
      modifies disco`archivos
      ensures Paso(r, disco.archivos) == Clasificar(intento, inputPath, RutaPdf(inputPath, outputDir), old(disco.archivos), disco.directorios)
    {
      var pdfPath := RutaPdf(inputPath, outputDir);
      match intento {
        case Tiempo =>
          return Err("⏰ Timeout convirtiendo: " + Basename(inputPath));
        case ErrorSpawn(m) =>
          return Err("❌ Error ejecutando LibreOffice: " + m);
        case Salida(codigo, stderr, stdout, escribio) =>
          if escribio {
            disco.Escribir(pdfPath);
          }
          if codigo == Some(0) {
            if pdfPath in disco.archivos || pdfPath in disco.directorios {
              r := Ok(pdfPath);
            } else {
              r := Err("PDF no se generó en: " + pdfPath);
            }
          } else {
            r := Err(MensajeFallo(codigo, stderr, stdout));
          }
      }
    }

    /** One attempt of the retry loop, related to the attempts that remain:
        a success or the last attempt ends the loop, any other failure
        leaves the rest of the attempts to run. */
    method Intentar(inputPath: string, outputDir: string, intento: int, intentos: int, herramienta: int -> Intento,
                    disco: Disco, ghost pdf: string)
      returns (r: Result<string>)
      requires procesoActivo && intento <= intentos && pdf == RutaPdf(inputPath, outputDir)
      modifies disco`archivos
      ensures var c := Reintentar(intento, intentos, herramienta, inputPath, pdf, old(disco.archivos), disco.directorios);
              if r.Ok? || intento == intentos then c == Conversion(r, 1, disco.archivos)
              else
                var resto := Reintentar(intento + 1, intentos, herramienta, inputPath, pdf, disco.archivos, disco.directorios);
                c == Conversion(resto.resultado, resto.intentos + 1, resto.archivos)
    {
      ghost var antes := disco.archivos;
      r := EjecutarConversion(inputPath, outputDir, herramienta(intento), disco);
      ReintentarUnPaso(intento, intentos, herramienta, inputPath, pdf, antes, disco.directorios);
    }

    /** `convertirAPdf`: `herramienta(k)` is how attempt k ends. The caller
        holds no conversion of its own, so the wait for the flag is empty;
        `realizados` counts the attempts. */
    method ConvertirAPdf(inputPath: string, outputDir: string, intentos: int, herramienta: int -> Intento, disco: Disco)
      returns (r: Result<string>, ghost realizados: nat)
      requires !procesoActivo
      modifies this, disco`archivos
      ensures !procesoActivo
      ensures var c := Convertir(inputPath, outputDir, intentos, herramienta, old(disco.archivos), disco.directorios);
              r == c.resultado && realizados == c.intentos && disco.archivos == c.archivos
    {
      if inputPath !in disco.archivos && inputPath !in disco.directorios {
        return Err("Archivo no encontrado: " + inputPath), 0;
      }
      procesoActivo := true;
      r, realizados := Reintentos(inputPath, outputDir, intentos, herramienta, disco);
      procesoActivo := false;
    }

    /** The retry loop of `convertirAPdf`, run while the flag is held. */
    method Reintentos(inputPath: string, outputDir: string, intentos: int, herramienta: int -> Intento, disco: Disco)
      returns (r: Result<string>, ghost realizados: nat)
      requires procesoActivo
      modifies disco`archivos
      ensures var c := Reintentar(1, intentos, herramienta, inputPath, RutaPdf(inputPath, outputDir), old(disco.archivos), disco.directorios);
              r == c.resultado && realizados == c.intentos && disco.archivos == c.archivos
    {
      ghost var pdf := RutaPdf(inputPath, outputDir);
      ghost var total := Reintentar(1, intentos, herramienta, inputPath, pdf, disco.archivos, disco.directorios);
      realizados := 0;
      var intento := 1;
      ghost var resto := total;
      while intento <= intentos
        invariant intento >= 1
        invariant resto == Reintentar(intento, intentos, herramienta, inputPath, pdf, disco.archivos, disco.directorios)
        invariant total == Conversion(resto.resultado, realizados + resto.intentos, resto.archivos)
        decreases intentos - intento
      {
        var res := Intentar(inputPath, outputDir, intento, intentos, herramienta, disco, pdf);
        realizados := realizados + 1;
        if res.Ok? || intento == intentos {
          return res, realizados;
        }
        resto := Reintentar(intento + 1, intentos, herramienta, inputPath, pdf, disco.archivos, disco.directorios);
        intento := intento + 1;
      }
      r := Err("Todos los intentos de conversión fallaron");
    }

    /** `convertirMultiplesArchivos`: converts every input in turn; a failure
        is recorded with its message and the batch goes on. */
    method ConvertirMultiplesArchivos(archivos: seq<string>, outputDir: string, herramienta: nat -> int -> Intento, disco: Disco)
      returns (exitosos: seq<string>, fallidos: seq<(string, string)>)
      requires !procesoActivo
      modifies this, disco`archivos
      ensures !procesoActivo
      ensures var l := ConvertirLote(archivos, outputDir, herramienta, old(disco.archivos), disco.directorios);
              exitosos == l.exitosos && fallidos == l.fallidos && disco.archivos == l.archivos
    {
      exitosos, fallidos := [], [];
      for i := 0 to |archivos|
        invariant !procesoActivo
        invariant var l := ConvertirLote(archivos[..i], outputDir, herramienta, old(disco.archivos), disco.directorios);
                  exitosos == l.exitosos && fallidos == l.fallidos && disco.archivos == l.archivos
      {
        assert archivos[..i + 1][..i] == archivos[..i];
        var r, _ := ConvertirAPdf(archivos[i], outputDir, INTENTOS_CONVERSION, herramienta(i), disco);
        if r.Ok? {
          exitosos := exitosos + [r.value];
        } else {
          fallidos := fallidos + [(archivos[i], r.error)];
        }
      }
      assert archivos[..|archivos|] == archivos;
    }
  }
}
