# docsLote in Dafny

A model of the batch document generator `docsLote`. It reads a list of people
from a spreadsheet. For every person it creates a folder and fills in every
selected template: a Word document or an Excel workbook. Depending on the
output mode, it keeps the filled-in originals, converts them to PDF through
LibreOffice, or both. It then adds up how many documents succeeded and how
many failed.

The project has seven modules, one per file:

- `Cadenas` (`cadenas.dfy`): `Option`/`Result`/`Outcome` and the JavaScript string operations the code relies on: trim, `includes`, `endsWith`, ASCII case changes, `toString` of numbers, `join`.
- `Tipos` (`tipos.dfy`): the person record, template descriptors, run options, results, and the configured templates and paths.
- `Archivos` (`archivos.dfy`): `limpiarNombre`, plus the filesystem as a class `Disco`. `Disco` holds the set of existing file paths and the set of existing directory paths. Its methods are `crearDirectorioSeguro`, a file write, and `limpiarArchivosTemporales`; the cleanup is a set removal.
- `Hojas` (`hojas.dfy`): everything the spreadsheet service does once the rows are fetched:
  - filtering rows and building records;
  - slicing by limit or range;
  - search by name and by criterion;
  - statistics.
- `Generador` (`generador.dfy`): the data enrichment, the worksheet cell mapping (a class `Hoja`) and the class `DocumentGenerator`. `DocumentGenerator` has the template cache, the cache miss of `generarWord`, `generarExcel` and `validarPlantillasExisten`.
- `Conversor` (`conversor.dfy`): the class `PDFConverter`. It covers:
  - its busy flag `procesoActivo`;
  - the retry loop of `convertirAPdf`;
  - the classification of one converter run;
  - `convertirMultiplesArchivos`;
  - `esArchivoConvertible`, with the `path.basename`/`path.extname` behaviour it depends on.
- `Procesador` (`procesador.dfy`): the class `ProcesadorPrincipal`. It covers:
  - mode dispatch (`todos`, `rango`, `especifico`);
  - the per-person loop and the per-template loop;
  - the output-mode dispatch;
  - the `solo-pdf` cleanup;
  - the general-failure path;
  - the totals.

Every loop of the code that walks a list is a loop in the model. The one exception is the busy-wait on `procesoActivo` (see "Left out"). Each such method is proved against a recursive specification function over a prefix of its input:
- `Precargar` for the template preload;
- `Reintentar` for the conversion attempts;
- `ConvertirLote` for batch conversion;
- `ProcesarPlantillas` for the templates of one person;
- `ProcesarTodas` for the people;
- `Ejecucion` for a whole run.

The properties the code promises are lemmas about those functions. The processor also keeps a ghost trace `acciones` of the service calls it makes: render, convert, clean up. The dispatch and cleanup properties are stated over that trace.

What the outside world would answer is a parameter rather than an effect. That covers:
- the Word engine;
- the file reader;
- the workbook as ExcelJS reads it;
- the outcome of each converter run;
- the clock;
- the random number;
- failures of `mkdir`, write and `unlink`.

In `Procesador`, these are gathered in a `Mundo`. Its oracles are indexed by the person's position in the list (counting from 0) and the template name.

Several behaviours follow the code as written, where a reader might expect otherwise:

- In `solo-pdf` mode the cleanup of the person's folder runs once per person. It runs whether or not the templates succeeded (processor.ts:189-191). It removes the `.docx`/`.xlsx` originals, not `.tmp` files.
- If the person's folder cannot be created, the number of CONFIGURED templates is added to `errores`, even when only some were selected (processor.ts:195). One "Error general: …" entry is recorded.
- `email_dominio` is `undefined` (the `Indefinido` value) when a non-empty email has no '@' (documentGenerator.ts:162). It is "" only when the email is empty.
- An output mode other than the three known ones renders nothing, converts nothing, and counts every template as a success (processor.ts:213, 222).
- `plantillasEspecificas` given as an empty list selects no template, because an empty array is truthy.
- Row numbering (`indice`) counts the rows kept after filtering, starting at 1. The range filter `rangoInicio..rangoFin` refers to that numbering. The oracles do not: they are keyed by the 0-based position in the list being processed. In `rango` mode, position 0 is the record numbered `rangoInicio`.
- The range filter needs both bounds truthy (processor.ts:89): a bound of 0 is the error "Rango no especificado correctamente".
- A conversion counts as successful when the PDF path exists after a normal exit, even if it existed before the run (pdfConverter.ts:113-116).

## Model

| member | source | states |
|---|---|---|
| Cadenas.Recortar | src/services/googleSheets.ts:51-59 | the result is not longer than the input and neither starts nor ends with JavaScript white space |
| Cadenas.RecortarInicio | src/services/googleSheets.ts:48 | the result is a suffix of the input, does not start with white space, and only white space was removed |
| Cadenas.RecortarFin | src/services/googleSheets.ts:48 | the result is a prefix of the input, does not end with white space, and only white space was removed |
| Cadenas.RecortarSinBordes | src/services/googleSheets.ts:51-59 | trimming a string without white space at either end leaves it unchanged |
| Cadenas.Minusculas | src/services/googleSheets.ts:83-84 | same length; no upper-case ASCII letter remains; every other character is kept; a string without capitals is returned unchanged |
| Cadenas.MinusculasIdempotente | src/services/googleSheets.ts:83-84 | lower-casing twice is lower-casing once |
| Cadenas.MinusculasConcatena | src/services/googleSheets.ts:111 | lower-casing distributes over concatenation |
| Cadenas.Mayusculas | src/services/documentGenerator.ts:193 | same length; no lower-case ASCII letter remains; every other character is kept; a string without lower-case letters is returned unchanged |
| Cadenas.MinusculaAscii | src/services/documentGenerator.ts:167 | no upper-case ASCII letter remains; any other character is kept; a capital becomes the lower-case letter that upper-cases back to it |
| Cadenas.MayusculaAscii | src/services/documentGenerator.ts:178 | no lower-case ASCII letter remains; any other character is kept |
| Cadenas.IndiceDe | src/services/documentGenerator.ts:162 | absent exactly when the character does not occur; otherwise it is the first occurrence |
| Cadenas.UltimoIndiceDe | src/services/pdfConverter.ts:78 | absent exactly when the character does not occur; otherwise no occurrence follows it |
| Cadenas.UltimoIndiceDeUnico | src/services/pdfConverter.ts:78 | an occurrence with no later occurrence is the last index |
| Cadenas.NatACadena | src/services/documentGenerator.ts:194 | a non-empty string of decimal digits, one digit exactly below 10 |
| Cadenas.IntACadena | src/services/googleSheets.ts:111 | non-empty, and it starts with '-' exactly for negative numbers |
| Tipos.TextoHeredado | src/services/googleSheets.ts:111 | the text of an inherited member is never empty |
| Tipos.CampoPropio | src/services/googleSheets.ts:110 | each of the record's own fields is a string, except `indice`, which is its number |
| Tipos.CampoPersona | src/services/googleSheets.ts:110 | undefined exactly for a name that is neither one of the ten fields nor inherited from `Object.prototype`; a number exactly for `indice`; a string exactly for the other nine fields; an inherited member is its rendered text |
| Tipos.CampoHeredado | src/services/googleSheets.ts:110 | no own field shadows an inherited name, so every record gives the inherited member |
| Tipos.Seleccion | src/cli/processor.ts:170-172 | a template is selected iff it is configured and, when names are given, its name is listed; without names, all are selected |
| Tipos.SeleccionConcatena | src/services/documentGenerator.ts:17-19 | selection keeps configuration order: it distributes over concatenation |
| Archivos.QuitarAcentos | src/utils/fileUtils.ts:10 | no combining mark remains, and a string without any is unchanged |
| Archivos.QuitarAcentosConcatena | src/utils/fileUtils.ts:10 | removal acts character by character: it distributes over concatenation, so order is kept |
| Archivos.QuitarAcentosUno | src/utils/fileUtils.ts:10 | one character is dropped iff it is a combining mark (U+0300..U+036F) |
| Archivos.SoloPermitidos | src/utils/fileUtils.ts:11 | only word characters, white space and '-' remain; a string made only of those is unchanged |
| Archivos.SoloPermitidosConcatena | src/utils/fileUtils.ts:11 | the filter acts character by character: it distributes over concatenation, so order is kept |
| Archivos.SoloPermitidosUno | src/utils/fileUtils.ts:11 | one character is kept iff it is a word character, white space or '-' |
| Archivos.ColapsarEspacios | src/utils/fileUtils.ts:12 | no white space remains, a string without white space is unchanged, and the word/'-' alphabet is kept |
| Archivos.ColapsarRacha | src/utils/fileUtils.ts:12 | a maximal run of white space becomes exactly one '_' |
| Archivos.ColapsarRachaTras | src/utils/fileUtils.ts:12 | a maximal run of white space anywhere in the string, after a prefix that is empty or ends in a non-space, becomes exactly one '_' between the collapsed prefix and the collapsed rest |
| Archivos.ColapsarEspaciosConcatena | src/utils/fileUtils.ts:12 | cut just after a non-space, collapsing the whole is collapsing the two parts and joining them |
| Archivos.Prefijo | src/utils/fileUtils.ts:14 | a prefix of at most n characters, the whole string when it is short enough |
| Archivos.LimpiarNombre | src/utils/fileUtils.ts:7-15 | at most 50 characters, all lower-case ASCII letters, digits, '_' or '-' |
| Archivos.LimpiarNombreIdempotente | src/utils/fileUtils.ts:7-15 | sanitising a sanitised name changes nothing |
| Archivos.LimpiarNombreSinMarcas | src/utils/fileUtils.ts:10 | no combining diacritical mark survives |
| Archivos.TrasLimpiezaForma | src/utils/fileUtils.ts:38-53 | the cleanup only removes files; it keeps every file that is not a selected entry of the folder; it removes a selected entry exactly when its unlink succeeds; it changes nothing when the folder cannot be read |
| Archivos.Disco.CrearDirectorioSeguro | src/utils/fileUtils.ts:17-23 | on success the directory exists afterwards; on failure the error names the path and the cause, and the model records no change |
| Archivos.Disco.Escribir | src/services/documentGenerator.ts:71 | the written path exists afterwards and no other file changes |
| Archivos.Disco.LimpiarArchivosTemporales | src/utils/fileUtils.ts:38-53 | the remaining files are those `TrasLimpieza` describes; the loop removes the selected entries one by one, skipping failed unlinks; the extension list defaults to `EXTENSIONES_TEMPORALES` when none is given |
| Archivos.EsTemporalPorDefecto | src/utils/fileUtils.ts:38-42 | with the default list `['.tmp', '.temp']`, a name is selected iff it ends in ".tmp" or ".temp" |
| Hojas.FilasValidas | src/services/googleSheets.ts:48 | exactly the rows whose second cell is non-blank after trimming are kept |
| Hojas.FilasValidasConcatena | src/services/googleSheets.ts:48 | the row filter keeps order: it distributes over concatenation |
| Hojas.Numerar | src/services/googleSheets.ts:49-60 | one record per row; record k has number `primero + k`, and its name is the trimmed second cell |
| Hojas.TodasLasPersonasNumeradas | src/services/googleSheets.ts:47-60 | the k-th record is numbered k + 1 |
| Hojas.TodasLasPersonasConNombre | src/services/googleSheets.ts:47-60 | every record comes from a kept row and has a non-empty name |
| Hojas.IndiceSlice | src/services/googleSheets.ts:64 | a slice index is clamped into the sequence; an index already inside is kept |
| Hojas.Slice | src/services/googleSheets.ts:64 | a slice is never longer than the sequence |
| Hojas.SliceNumerado | src/services/googleSheets.ts:63-65 | on records numbered 1, 2, …, the range slice is the records numbered `inicio`..min(`fin`, n), in order, each once: its length is min(fin, n) - inicio + 1 (or 0), its k-th element is record `inicio - 1 + k`, and its members are exactly the records numbered in the range |
| Hojas.ObtenerPersonasRango | src/services/googleSheets.ts:63-65 | with both bounds given, the result is the records numbered `inicio`..min(`fin`, n), in order, each once (length, k-th element and members), and the limit is ignored |
| Hojas.ObtenerPersonasLimite | src/services/googleSheets.ts:66-68 | a positive limit keeps the first `limite` records (all of them when there are fewer); no limit or 0 keeps all |
| Hojas.PrimeraCoincidencia | src/services/googleSheets.ts:82-85 | the index found matches, and no earlier record matches; absent exactly when none matches |
| Hojas.ObtenerPersonaPorNombre | src/services/googleSheets.ts:79-94 | a record is found iff some record matches case-insensitively on the name or on "name surname"; the record found is the first that matches |
| Hojas.FiltrarCriterio | src/services/googleSheets.ts:109-112 | a record is kept iff the chosen field, as text, contains the value case-insensitively |
| Hojas.CriterioDesconocido | src/services/googleSheets.ts:106-113 | a name that is neither a field nor inherited selects no record |
| Hojas.FiltrarCriterioDesconocido | src/services/googleSheets.ts:109-112 | filtering on such a name keeps nothing |
| Hojas.FiltrarCriterioConcatena | src/services/googleSheets.ts:109-112 | the filter distributes over concatenation, so record order is kept |
| Hojas.FiltrarCriterioUno | src/services/googleSheets.ts:109-112 | one record is kept iff it meets the criterion |
| Hojas.FiltrarCriterioTodos | src/services/googleSheets.ts:109-112 | a filter that every record passes keeps the list unchanged, in order |
| Hojas.CriterioHeredado | src/services/googleSheets.ts:106-113 | an inherited name whose text contains the value selects every record |
| Hojas.CriterioConstructor | src/services/googleSheets.ts:106-113 | searching "constructor" for "function" returns every record |
| Hojas.ContarConEmail | src/services/googleSheets.ts:125 | at most the number of records; 0 iff no record has an email; all iff every record has one |
| Hojas.ContarConTelefono | src/services/googleSheets.ts:126 | at most the number of records; 0 iff no record has a phone; all iff every record has one |
| Hojas.ContarConcatena | src/services/googleSheets.ts:125-126 | both counts add up over concatenation |
| Hojas.Cursos | src/services/googleSheets.ts:127 | exactly the non-empty course names of the records |
| Hojas.CursosConcatena | src/services/googleSheets.ts:127 | course extraction keeps record order: it distributes over concatenation |
| Hojas.CursosUno | src/services/googleSheets.ts:127 | one record contributes its course when it is non-empty, and nothing otherwise |
| Hojas.Distintos | src/services/googleSheets.ts:127 | no repetitions, and every input element is present |
| Hojas.PrimeraAparicion | src/services/googleSheets.ts:127 | the first position of an element that occurs |
| Hojas.DistintosOrden | src/services/googleSheets.ts:127 | the distinct elements appear in the order of their first occurrence, as `new Set` iterates |
| Hojas.ObtenerEstadisticas | src/services/googleSheets.ts:115-129 | the total is the number of records; the two counts are `ContarConEmail` and `ContarConTelefono` of the records, bounded by the total; the courses are `Distintos` of the courses in record order, so they are distinct, are exactly the non-empty courses, and follow first appearance |
| Generador.NoVacias | src/services/documentGenerator.ts:177 | exactly the non-empty parts are kept |
| Generador.NoVaciasConcatena | src/services/documentGenerator.ts:177 | the filter keeps order: it distributes over concatenation |
| Generador.NoVaciasTres | src/services/documentGenerator.ts:176-177 | of the three name parts, the non-empty ones in the order given |
| Generador.UnirLetras | src/services/documentGenerator.ts:179 | joining single letters with '.' puts the letters at even positions and '.' between them |
| Generador.InicialesForma | src/services/documentGenerator.ts:175-182 | for any parts, the result holds the upper-cased first character of each non-empty part, in order, with '.' between consecutive ones and nothing else |
| Generador.InicialesCompletas | src/services/documentGenerator.ts:175-182 | with all three parts present, the result is "N.A.B" |
| Generador.Digitos | src/services/documentGenerator.ts:185 | only digits remain |
| Generador.DigitosIdentidad | src/services/documentGenerator.ts:185 | a string of digits is unchanged |
| Generador.DigitosConcatena | src/services/documentGenerator.ts:185 | digit extraction distributes over concatenation |
| Generador.DigitosSinDigito | src/services/documentGenerator.ts:185 | a non-digit character contributes nothing |
| Generador.FormatearTelefono | src/services/documentGenerator.ts:184-190 | the digits are preserved; with fewer than 8 digits the number is returned unchanged; otherwise the digits are grouped 3-3-rest with '-' |
| Generador.Agrupar | src/services/documentGenerator.ts:187 | two dashes, at positions 3 and 7 |
| Generador.DigitosAgrupados | src/services/documentGenerator.ts:187 | grouping adds no digit and loses none |
| Generador.DigitosTres | src/services/documentGenerator.ts:187 | the dashes contribute no digit |
| Generador.FormatearTelefonoIdempotente | src/services/documentGenerator.ts:184-190 | formatting a formatted number changes nothing |
| Generador.Ultimos | src/services/documentGenerator.ts:194 | the last n characters (all of them when there are fewer) |
| Generador.NatACadenaValor | src/services/documentGenerator.ts:194 | the decimal rendering reads back as the number |
| Generador.UltimosValor | src/services/documentGenerator.ts:194 | the last k digits of a number represent it modulo 10^k |
| Generador.UltimosDigitos | src/services/documentGenerator.ts:194 | the last k characters of a digit string are digits |
| Generador.CodigoUnicoForma | src/services/documentGenerator.ts:192-196 | the code is an upper-cased base of at most four letters, followed by at most four digits, whose value is the clock modulo 10000; there are four digits once the clock reaches 1000 |
| Generador.DominioEmail | src/services/documentGenerator.ts:162 | undefined exactly for a non-empty email without '@'; never a number; the text contains no '@' |
| Generador.DominioEmailCompone | src/services/documentGenerator.ts:162 | for "local@domain" followed by nothing or by another '@…', the result is the domain |
| Generador.Enriquecer | src/services/documentGenerator.ts:140-173 | the record is copied unchanged; `email_dominio` is undefined iff the email is non-empty without '@', and "" for an empty email |
| Generador.EscribirCeldasFuera | src/services/documentGenerator.ts:99-104 | a cell that no pair names is left as it was |
| Generador.EscribirCeldasDentro | src/services/documentGenerator.ts:99-104 | with distinct cells, a truthy value is written to its cell, and a falsy one leaves its cell as it was |
| Generador.MapeoDefectoCeldas | src/services/documentGenerator.ts:117-138 | each non-empty default value is written to its cell; an empty one leaves its cell; every other cell is untouched |
| Generador.MapeoRegistradoCeldas | src/services/documentGenerator.ts:97-104 | each truthy mapped property is written to its cell; a falsy one leaves its cell; unmapped cells are untouched |
| Generador.MapeosCeldasDistintas | src/config/settings.ts:128-151 | every configured mapping names distinct cells |
| Generador.EscribirCeldasSegun | src/services/documentGenerator.ts:99-104 | writing pairs with distinct cells sets the cell of each truthy pair, leaves the cell of each falsy pair, and leaves every other cell |
| Generador.ParesExcelDistintos | src/services/documentGenerator.ts:97-108 | the pairs written for any template name, registered or default, go to distinct cells |
| Generador.LibroExcelCeldas | src/services/documentGenerator.ts:87-110 | on success the first sheet is the template's with the registered mapping of the template applied (field by field), or the default layout when there is none |
| Generador.Hoja.Asignar | src/services/documentGenerator.ts:99-104 | the worksheet becomes `EscribirCeldas` of the old cells and the pairs |
| Generador.Hoja.AplicarMapeoDefault | src/services/documentGenerator.ts:117-138 | the worksheet becomes the old cells with the default pairs written |
| Generador.PrecargarPaso | src/services/documentGenerator.ts:24-40 | one more template either caches its contents and counts as loaded, or counts as an error |
| Generador.PrecargarCuenta | src/services/documentGenerator.ts:21-44 | loaded plus errors equals the number of selected templates; none is loaded iff no template is both present and readable |
| Generador.PrecargarClaves | src/services/documentGenerator.ts:24-40 | the cache keys afterwards are the old keys plus the names of the loadable templates |
| Generador.PrecargarConserva | src/services/documentGenerator.ts:33 | an entry that no loadable template overwrites is kept |
| Generador.PrecargarContenido | src/services/documentGenerator.ts:32-33 | a loaded template not overwritten later maps to the contents read |
| Generador.ResultadoWord | src/services/documentGenerator.ts:54-78 | a name missing from the cache fails with "not found in cache"; success needs a cached template, a rendered document and a successful write |
| Generador.LibroExcel | src/services/documentGenerator.ts:87-114 | a read error, a workbook without sheets and a failed write fail with the Excel message; otherwise it succeeds; on success the first sheet is the template's first sheet with the template's pairs written, and the other sheets are unchanged |
| Generador.PlantillasPorTipo | src/services/documentGenerator.ts:203-205 | exactly the configured templates of that type |
| Generador.PlantillasPorTipoConcatena | src/services/documentGenerator.ts:203-205 | the filter keeps configuration order: it distributes over concatenation |
| Generador.PlantillasPorTipoConfig | src/services/documentGenerator.ts:203-205 | on the shipped configuration, Word gives the certificate and Excel the credentials form |
| Generador.ExistentesParticion | src/services/documentGenerator.ts:207-220 | every template is in exactly one list: present if its file exists, missing otherwise |
| Generador.DocumentGenerator.PrecargarPlantillas | src/services/documentGenerator.ts:14-47 | cache and counts are those of `Precargar` over the selection; the call fails exactly when nothing was loaded |
| Generador.DocumentGenerator.GenerarWord | src/services/documentGenerator.ts:49-79 | the outcome is `ResultadoWord` on the enriched record; the output file exists exactly on success |
| Generador.DocumentGenerator.GenerarExcel | src/services/documentGenerator.ts:81-115 | the outcome is `LibroExcel`; the output file exists exactly on success |
| Generador.DocumentGenerator.ValidarPlantillasExisten | src/services/documentGenerator.ts:207-220 | the presence partition of the configured templates, whose sizes add up to the configuration |
| Conversor.SinBarrasFinales | src/services/pdfConverter.ts:78 | a prefix with no trailing '/' |
| Conversor.Basename | src/services/pdfConverter.ts:78 | contains no '/' |
| Conversor.ExtensionDeBase | src/services/pdfConverter.ts:78 | empty, or a proper suffix of the name that starts with '.' |
| Conversor.BasenameDe | src/services/pdfConverter.ts:78 | the base name of "dir/b" is b |
| Conversor.ExtensionSinPunto | src/services/pdfConverter.ts:78 | a name without '.' has no extension |
| Conversor.ExtensionDe | src/services/pdfConverter.ts:78 | the extension of stem + ".ext" is ".ext" |
| Conversor.ExtensionOculto | src/services/pdfConverter.ts:78 | a hidden name ".name" without another '.' has no extension |
| Conversor.RutaPdfCompone | src/services/pdfConverter.ts:77-79 | for "dir/stem.ext", the result is base stem.ext, extension .ext, and PDF path `outputDir/stem.pdf` |
| Conversor.EsArchivoConvertible | src/services/pdfConverter.ts:174-177 | a convertible file has an extension |
| Conversor.EsArchivoConvertibleSii | src/services/pdfConverter.ts:170-177 | "dir/stem.ext" is convertible iff the lower-cased extension is one of the eight; a name without '.' is not |
| Conversor.ArchivoOcultoNoConvertible | src/services/pdfConverter.ts:174-177 | a hidden file such as ".docx" is never convertible |
| Conversor.Clasificar | src/services/pdfConverter.ts:110-129 | a run succeeds iff it exits with code 0 and the PDF then exists; it then returns the PDF path; the files gain the PDF when the run wrote it and are otherwise unchanged, so a PDF that existed before stays |
| Conversor.Convertir | src/services/pdfConverter.ts:35-38 | a missing input fails with "Archivo no encontrado" before any attempt, and changes nothing |
| Conversor.ReintentarCotas | src/services/pdfConverter.ts:48-65 | with no attempts left the generic error is returned; otherwise between 1 and the remaining attempts are made, all of them when the result is an error |
| Conversor.ReintentarExito | src/services/pdfConverter.ts:48-62 | a success returns the PDF path, and that path exists |
| Conversor.ReintentarUnPaso | src/services/pdfConverter.ts:49-62 | a success or the last attempt ends the loop; any other failure retries with one more attempt counted |
| Conversor.PrimerExito | src/services/pdfConverter.ts:48-62 | if runs before attempt k wrote nothing and attempt k writes the PDF with code 0, the result is that PDF after k attempts |
| Conversor.TodosFallan | src/services/pdfConverter.ts:48-65 | if no run writes the PDF, every attempt is made, the error of the last one is returned, and no file appears |
| Conversor.ConvertirCotas | src/services/pdfConverter.ts:30-69 | for an existing input: no attempts means the generic error; otherwise 1..n attempts, all n on failure; a success is the PDF path, which exists |
| Conversor.ConvertirExito | src/services/pdfConverter.ts:52-55 | a successful conversion returns `outputDir/<stem>.pdf` |
| Conversor.ConvertirLoteParticion | src/services/pdfConverter.ts:133-167 | every input lands in exactly one list; failures name their input, and successes are PDF paths of inputs; the lists are `ExitososHasta` and `FallidosHasta`, the per-input outcomes filtered in input order |
| Conversor.ResultadosHastaIndice | src/services/pdfConverter.ts:143-162 | position i of the batch's results is input i's own conversion result |
| Conversor.ExitosContiene | src/services/pdfConverter.ts:146-147 | every successful result has its value among the successes |
| Conversor.ConvertirLoteEnOrden | src/services/pdfConverter.ts:143-162 | the batch over the first k inputs lists them in input order, each by its own outcome |
| Conversor.FallidosHastaContiene | src/services/pdfConverter.ts:152-155 | a failed input is listed among the failures, with its own error |
| Conversor.ConvertirLoteCadaEntrada | src/services/pdfConverter.ts:143-162 | each input is listed: its PDF path among the successes when its own conversion succeeds, itself with its error among the failures otherwise |
| Conversor.PDFConverter.VerificarLibreOffice | src/services/pdfConverter.ts:18-28 | true iff the converter binary exists |
| Conversor.PDFConverter.EjecutarConversion | src/services/pdfConverter.ts:71-131 | the result and the files afterwards are the classification of the run |
| Conversor.PDFConverter.Intentar | src/services/pdfConverter.ts:49-62 | one attempt: the loop either ends with its result or goes on with the next attempt |
| Conversor.PDFConverter.Reintentos | src/services/pdfConverter.ts:47-65 | result, attempts made and files are those of `Reintentar` from attempt 1 |
| Conversor.PDFConverter.ConvertirAPdf | src/services/pdfConverter.ts:30-69 | result, attempts and files are those of `Convertir`; the busy flag is clear afterwards |
| Conversor.PDFConverter.ConvertirMultiplesArchivos | src/services/pdfConverter.ts:133-167 | the success and failure lists, in input order, and the files are those of `ConvertirLote` |
| Procesador.Generacion | src/cli/processor.ts:214-218 | one render call; the output file exists afterwards exactly on success |
| Procesador.PlantillaDespachoOriginales | src/cli/processor.ts:212-219 | `solo-originals` is one render to `<dir>/<name>.<ext>`; an unknown mode does nothing and succeeds |
| Procesador.PlantillaDespachoPdf | src/cli/processor.ts:221-233 | in the PDF modes: one render, then one conversion only if the render succeeded; success means the PDF exists |
| Procesador.PlantillaSinLimpieza | src/cli/processor.ts:202-234 | processing one template never cleans up |
| Procesador.ProcesarPlantillasPaso | src/cli/processor.ts:175-186 | one more template records its outcome and appends its calls |
| Procesador.AnotarPlantillaContabilizada | src/cli/processor.ts:176-185 | recording one more outcome keeps the counts and lists in step with the templates done |
| Procesador.ProcesarPlantillasCuenta | src/cli/processor.ts:174-186 | the name is the trimmed "name surname"; successes plus errors equal the templates; each list entry names one of them |
| Procesador.ProcesarPlantillasSinLimpieza | src/cli/processor.ts:174-186 | the template loop never cleans up |
| Procesador.ProcesarPlantillasNombre | src/cli/processor.ts:158-164 | the result carries the person's display name |
| Procesador.ProcesarPlantillasTotal | src/cli/processor.ts:174-186 | successes plus errors equal the number of templates |
| Procesador.ProcesarPersonaCuenta | src/cli/processor.ts:147-200 | with the folder created, the counts cover the selection, the folder exists, and `solo-pdf` cleans up once (other modes never); on failure, no work is done, configured-template errors are counted, and there is one "Error general" entry |
| Procesador.ProcesarPersonaNombre | src/cli/processor.ts:159 | the result carries the trimmed "name surname" |
| Procesador.ProcesarPersonaTotal | src/cli/processor.ts:166-191 | with the folder created, successes plus errors equal the selected templates |
| Procesador.ProcesarTodasPaso | src/cli/processor.ts:133-137 | one more person appends one result and that person's calls |
| Procesador.ProcesarTodasUnoPorPersona | src/cli/processor.ts:130-144 | one result per person, in order, named after that person |
| Procesador.ProcesarTodasCuenta | src/cli/processor.ts:130-144 | when every folder can be created, each result accounts for every selected template |
| Procesador.SumasUniformes | src/cli/processor.ts:42-43 | when each person accounts for c templates, the totals add up to persons × c |
| Procesador.SumaErroresPositiva | src/cli/processor.ts:43 | one person's error makes the total positive |
| Procesador.PersonasSegunModoRango | src/cli/processor.ts:88-93 | a range with both bounds at least 1 is Ok and holds the records numbered `inicio`..min(`fin`, n), in order, each once |
| Procesador.PersonasSegunModoForma | src/cli/processor.ts:81-108 | `todos` gives the first min(500, n) records; a missing or 0 range bound is "Rango no especificado correctamente"; a range with positive bounds gives the records numbered `inicio`..min(`fin`, n), in order, each once; `especifico` without a name is "Nombre no especificado", and otherwise gives the first matching record, or nothing when none matches; an unknown mode is the "Modo no válido" error |
| Procesador.EjecucionCompleta | src/cli/processor.ts:17-51 | a completed run processed a non-empty list of people, and its result is the sums over their details |
| Procesador.EjecucionTotales | src/cli/processor.ts:17-51 | an empty list is an error; a completed run processed every person once, in order; the totals are the sums of the details, and persons × selected templates when every folder was created |
| Procesador.ProcesadorPrincipal.GenerarOriginal | src/cli/processor.ts:214-218 | outcome, files and recorded call are those of `Generacion` |
| Procesador.ProcesadorPrincipal.ProcesarPlantillaParaPersona | src/cli/processor.ts:202-234 | outcome, files and calls are those of `PlantillaParaPersona`; the converter is left idle |
| Procesador.ProcesadorPrincipal.ContarPlantilla | src/cli/processor.ts:176-185 | the loop invariant advances from k templates to k + 1 |
| Procesador.ProcesadorPrincipal.ProcesarSeleccion | src/cli/processor.ts:174-186 | result, files and calls are those of `ProcesarPlantillas` |
| Procesador.ProcesadorPrincipal.ProcesarConCarpeta | src/cli/processor.ts:169-191 | result, files and calls are those of `PersonaConCarpeta`; `solo-pdf` appends the cleanup |
| Procesador.ProcesadorPrincipal.ProcesarPersonaIndividual | src/cli/processor.ts:147-200 | result, filesystem and calls are those of `ProcesarPersona` |
| Procesador.ProcesadorPrincipal.ProcesarPersonas | src/cli/processor.ts:110-145 | results, filesystem and calls are those of `ProcesarTodas` |
| Procesador.ProcesadorPrincipal.Ejecutar | src/cli/processor.ts:17-51 | result, cache, filesystem and calls are those of `Ejecucion` |

## Left out

- Archivos.Disco.CrearDirectorioSeguro: `mkdir` with `recursive: true` (fileUtils.ts:19) also creates every missing parent directory. The model records only `dir` itself in `directorios`, never the intermediate directories. Its "nothing changes on failure" is therefore a property of the model only: a real recursive `mkdir` can fail after creating some parents. No part of the core tests whether a parent directory exists.
- Canonical decomposition (`normalize("NFD")`) is not modelled: names are taken as already decomposed.
- Case changes (`toLowerCase`, `toUpperCase`) act on ASCII letters only; Unicode case mapping is not modelled.
- Cadenas.Minusculas: lower-cases ASCII letters only, because Unicode case tables are not modelled.
- The spreadsheet connection, authentication, `inicializar` of the sheets service and its time limit are left out: the rows are a parameter.
- Process spawning, output streams, timers and sleeps are I/O. A run's outcome, including the time limit, is a parameter.
- Conversor.Clasificar: a run that hits the time limit (`Tiempo`) writes nothing in the model. In the code the timer rejects the promise without stopping the converter, so a PDF may still appear later. That late file is not modelled. For the same reason, Conversor.TodosFallan's "no file appears" holds of the model only.
- The busy-wait on `procesoActivo` is concurrency and is not modelled as a loop. Conversor.PDFConverter.ConvertirAPdf requires the flag clear instead of waiting for it, because the model is sequential.
- Elapsed time (`tiempoTotal`), throughput and `formatearTamaño` are floating-point reporting and are not modelled.
- Logging, spinners, progress bars and `mostrarReporteFinal` are output only and are not modelled.
- `src/cli/commands.ts`, `generar.ts`, `generar0.ts` and `leer-sheets.js` are callers and are not part of this model.
- `path.join` is modelled as joining with '/' without normalising `..`, `.` or repeated separators.
- A fractional `intentos` is not modelled: the number of attempts is an integer.
- `obtenerVersionLibreOffice` and `listarPersonas` are not modelled: they only spawn the binary or print.
- `verificarPermisos` and `obtenerTamañoArchivo` are not modelled: they are never called by the core.
- `Math.random()`, the clock and the es-ES date renderings are parameters of enrichment.
- The Word template engine and ExcelJS are oracles: a template is opaque bytes, and a workbook is a list of cell maps.
- The enriched record is a datatype with the derived fields, not an open property bag.
- Generador.Enriquecer: its contract states only the copied record and `email_dominio`. `iniciales`, `telefono_formateado` and `codigo_unico` rest on their own functions, which `InicialesCompletas`, `FormatearTelefono` and `CodigoUnicoForma` describe. `nombre_completo`, `apellidos_completos`, `curso_mayuscula`, `curso_minuscula`, `aleatorio` and the date fields rest on the definition alone.
- Characters are Unicode scalar values, while JavaScript strings are UTF-16 code units. `charAt(0)` in the initials (documentGenerator.ts:178) and `slice(0, 2)` in the code (documentGenerator.ts:193) would split a character outside the Basic Multilingual Plane; the model takes whole characters.
- `LIMITE_PERSONAS` is the constant 500. The `todos` command overwrites it with its `--limite` option (commands.ts:49-51); the model does not, since that command is a caller.
- `SOFFICE_PATH` is the non-Windows path only (settings.ts:17-19).
- Inherited properties follow V8: `Tipos.TextoHeredado` gives the text of `toString()` on Node's built-in members of `Object.prototype`. Properties added to the prototype at run time are not modelled. The lookup `MAPEOS_EXCEL[plantillaNombre]` would also find an inherited member for such a name; the configured template names are not such names, so the model looks up own entries only.
- Hojas.Numerar: its contract states only the number and the name of each record. The other fields follow its definition, one trimmed cell each.
- Hojas.ObtenerPersonasRango: stated for `inicio >= 1` and `fin >= 0` only. Negative bounds, which `slice` counts from the back, are not covered by this lemma.
- Hojas.SliceNumerado: stated for `inicio >= 1` and `fin >= 0` only, for the same reason.
- Procesador.PersonasSegunModoForma: the range clause is stated for positive bounds only, for the same reason.
- Procesador.PersonasSegunModoRango: stated for positive bounds only, for the same reason.
- Writing a file that cannot be written is a parameter (`fallaEscritura`), not a filesystem state.
