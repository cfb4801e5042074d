# Morph-RDB and BURP tool adapters

This project models the two engine adapters of a knowledge-graph construction benchmark harness.
Each adapter turns a request ("run this mapping, write this output, in this serialization") into
what the engine's container is started with.

- **Morph-RDB** (`MorphRdb`) has no command-line options. The adapter maps the serialization to the
  engine's own name. It builds an ordered table of options: the mapping and output paths inside
  the shared directory, and database options only when all six connection arguments are given.
  It writes that table as an INI section and takes the `[root]` header off again, which leaves a
  flat `config.properties` in the engine's directory. It then starts a fixed Java command.
- **BURP** (`Burp`) builds a command-line argument list: `-m`, then `-o` when there is an output
  file, then `-b` when there is a base IRI. It starts `java -jar burp/burp.jar` with that list,
  after a verbosity flag when the adapter is verbose.

Both adapters give the JVM half of the host's memory as its heap, set both ways. Both report a run
that times out as a failure.

Supporting modules:
- `Text`: the string operations of Python used here: `str.join`, splitting a command at its
  spaces, `str.replace`, and decimal formatting.
- `Paths`: `os.path.basename` and `os.path.join`.
- `Container`: how a run ends, volume binding strings, and the heap policy.
- `IniConfig`: one `configparser` section with `write(..., space_around_delimiters=False)`, and a
  reader for flat `key=value` files.

The container run (`run_and_wait_for_exit`) is a parameter. For BURP it is `run: string -> RunOutcome`,
a function of the command alone. Morph-RDB reads its whole request from `config.properties`, so its
run is `run: (string, Option<string>) -> RunOutcome`, a function of the command and of the file
as it stands when the engine starts. A run either exits and is judged a success or not, or ends in
a `TimeoutError`. The host's total memory is a parameter. The file `config.properties` is the field
`configFile` of the `MorphRdb` class.

`IniConfig.ReadFlat` is the model's own reader for `key=value` lines: blank lines are skipped and
each other line is cut at its first `=`. It is not `java.util.Properties`, which also knows `\`
escapes, `:` and whitespace as separators, and `#`/`!` comments. The "reads back" properties below
are stated for this reader; for the engine they hold when no value holds `\` or starts with
whitespace (the engine's reader drops leading whitespace of a value), and no key holds `:`,
whitespace, or starts with `#` or `!`.

## Model

| member | source | states |
|---|---|---|
| MorphRdb.EngineSerialization | bench_executor/morphrdb.py:60-66 | `nquads` becomes `N-QUADS` and `ntriples` becomes `N-TRIPLE`, each iff; every other value has no engine name |
| MorphRdb.ConnectionFor | bench_executor/morphrdb.py:82-94 | there are settings iff the type is `MySQL` or `PostgreSQL`; `MySQL` gives driver `com.mysql.jdbc.Driver`, type `mysql` and URL `jdbc:mysql://host:port/name?allowPublicKeyRetrieval=true&useSSL=false`; `PostgreSQL` gives `org.postgresql.Driver`, `postgresql` and `jdbc:postgresql://host:port/name` |
| MorphRdb.SharedPathShape | bench_executor/morphrdb.py:70-71 | a stored path is `shared/` plus the base name of the given path, with no further `/` in it |
| Paths.BaseNameDropsDirectories | bench_executor/morphrdb.py:70-71 | directories in front of a path do not change its base name |
| MorphRdb.ConfigTableIgnoresDirectories | bench_executor/morphrdb.py:70-71 | the table for `dir/file` equals the table for `file`, for the mapping and the output file alike |
| MorphRdb.ConfigTable | bench_executor/morphrdb.py:60-97 | fails iff the serialization is unsupported, or all six database arguments are given with an unknown type; an unsupported serialization always gives `UnsupportedSerialization`, and the other failure is `UnknownRdbType` |
| MorphRdb.ConfigTableKeys | bench_executor/morphrdb.py:72-97 | the keys are the three base keys in order, followed by the seven database keys in order iff all six database arguments are given; no key repeats |
| MorphRdb.ConfigTableBaseValues | bench_executor/morphrdb.py:72-76 | the mapping path, the output path and the engine's serialization name read back under their keys |
| MorphRdb.ConfigTableWithoutDatabase | bench_executor/morphrdb.py:78-80 | when a database argument is missing, no `database.*` key and no `no_of_database` key is present |
| MorphRdb.ConfigTableDatabaseValues | bench_executor/morphrdb.py:81-97 | with all six arguments, the database name, user, password and `no_of_database=1` read back |
| MorphRdb.ConfigTableConnection | bench_executor/morphrdb.py:82-92 | with all six arguments, the driver, type and URL read back as the settings for the database type |
| MorphRdb.SetDatabaseOptions | bench_executor/morphrdb.py:81-97 | setting the database options one by one after the base options appends them in the order they are set |
| IniConfig.Set | bench_executor/morphrdb.py:81 | `section[key] = value`: the key then reads back as the value, every other key is unchanged, and a new key goes last |
| IniConfig.SetAllFresh | bench_executor/morphrdb.py:81-97 | setting options with new, distinct keys appends them in order |
| IniConfig.ReadFlatOfOptionLines | bench_executor/morphrdb.py:103 | single-line options with plain keys, written as `key=value` lines and a blank line, read back as the same table |
| MorphRdb.StripHeaderYieldsProperties | bench_executor/morphrdb.py:105-111 | the intended header removal (only the `[root]` line at the start, the corrected half of the finding) leaves exactly the option lines and the final blank line |
| MorphRdb.PropertiesReadBack | bench_executor/morphrdb.py:99-111 | with the intended header removal (`StripHeader` of the written section) and single-line arguments, the file reads back as exactly the table that was built |
| MorphRdb.ConfigTableFlat | bench_executor/morphrdb.py:72-97 | for single-line arguments, every key is free of `=` and line breaks and every value is one line |
| MorphRdb.AsWrittenHasNoSectionLine | bench_executor/morphrdb.py:105-111 | for a flat section whose keys do not start with `[`, the file left by `replace` does not start with the header, and none of its lines starts with `[`, even where values end in `[root]` |
| MorphRdb.ConfigFileHasNoSectionLine | bench_executor/morphrdb.py:99-111 | for single-line arguments, the `config.properties` that `execute_mapping` leaves has no `[root]` header and no line starting with `[` |
| Text.ReplaceKeepsLinesAvoid | bench_executor/morphrdb.py:111 | deleting every occurrence of a pattern that ends with a line break starts no new line that begins with a given character |
| IniConfig.OptionLinesAvoid | bench_executor/morphrdb.py:103 | in the option lines of a flat section, no line starts with a character that starts no key |
| MorphRdb.AsWrittenReadBack | bench_executor/morphrdb.py:99-111 | with the header removal as written, the file reads back as exactly the table when no value holds a line break or ends in `[root]` |
| MorphRdb.AsWrittenStripAgrees | bench_executor/morphrdb.py:110-111 | `replace('[root]\n', '')` agrees with removing only the header when no value ends in `[root]` |
| MorphRdb.RootSuffixGluesOptions | bench_executor/morphrdb.py:110-111 | when the first value ends in `[root]`, `replace` joins the first two option lines into one option |
| MorphRdb.RootSuffixLosesOutput | bench_executor/morphrdb.py:110-111 | a mapping file named `<stem>[root]` puts `output.file.path` in the table, yet the file left for the engine no longer holds it |
| MorphRdb.Command | bench_executor/morphrdb.py:37-40 | the fixed command text; its words are `MorphRdb.CommandWords` |
| MorphRdb.SharedPath | bench_executor/morphrdb.py:70-71 | `os.path.join('shared', os.path.basename(p))`; its shape is `MorphRdb.SharedPathShape` |
| Paths.BaseName | bench_executor/morphrdb.py:70-71 | `os.path.basename`: a suffix of the path with no `/`, preceded by a `/` unless it is the whole path |
| MorphRdb.BaseOptions | bench_executor/morphrdb.py:72-76 | the three base options in their order; their keys are `MorphRdb.BaseOptionsKeys` |
| MorphRdb.DatabaseOptions | bench_executor/morphrdb.py:81-97 | the seven database options in the order they are set; their keys are `MorphRdb.DatabaseOptionsKeys` |
| IniConfig.SetAll | bench_executor/morphrdb.py:81-97 | sets options one after the other; for fresh keys it appends them (`IniConfig.SetAllFresh`) |
| IniConfig.WriteSection | bench_executor/morphrdb.py:103 | `write` of the one section: the header line, the option lines, and a blank line |
| IniConfig.OptionLine | bench_executor/morphrdb.py:103 | one option as `key=value`, continuation lines indented by a tab |
| MorphRdb.StripHeaderAsWritten | bench_executor/morphrdb.py:111 | `data.replace('[root]\n', '')`; what it does is `MorphRdb.AsWrittenStripAgrees` and `MorphRdb.RootSuffixGluesOptions` |
| MorphRdb.Complete | bench_executor/morphrdb.py:78-80 | all six database arguments are given; `ConfigTableKeys` states that the database keys are present iff this holds |
| MorphRdb.Dsn | bench_executor/morphrdb.py:85-91 | the JDBC URL `jdbc:<kind>://<host>:<port>/<name>`; `ConnectionFor` states the URL each known type gets from it |
| Container.Binding | bench_executor/morphrdb.py:25-26 | the volume text `<host>:<target>`, also used at bench_executor/burp.py:48-49; `BindingRoundTrip` splits it back into its two paths |
| Text.JoinWith | bench_executor/burp.py:80 | Python's `sep.join(parts)`; `WordsOfJoin` splits a space-joined list of words back into the list |
| Text.Decimal | bench_executor/morphrdb.py:37 | Python's `str` of a natural number, as used for the heap here and at bench_executor/burp.py:76: digits only, no leading zero; `DecimalRoundTrip` parses it back as the number |
| Text.ReplaceAll | bench_executor/morphrdb.py:111 | Python's `str.replace`: every occurrence, scanned left to right without overlap |
| MorphRdb.Volumes | bench_executor/morphrdb.py:25-26 | the two volume bindings; their paths are `MorphRdb.VolumesMounts` |
| MorphRdb.BaseOptionsKeys | bench_executor/morphrdb.py:72-76 | the base options' keys are the three base keys in order |
| MorphRdb.DatabaseOptionsKeys | bench_executor/morphrdb.py:81-97 | the database options' keys are the seven database keys in order |
| MorphRdb.CommandWords | bench_executor/morphrdb.py:37-40 | split at its spaces, the command is `java -Xmx<h> -Xms<h> -cp <class path> <runner> /data config.properties` |
| MorphRdb.CommandHeap | bench_executor/morphrdb.py:34-37 | the command has eight words, and the number after `-Xmx` parses back as the heap |
| Container.HeapSize | bench_executor/morphrdb.py:34 | the heap is half of the total memory, rounded down |
| Container.BindingRoundTrip | bench_executor/morphrdb.py:25-26 | a `host:target` binding reads back as its host path and its container path |
| MorphRdb.VolumesMounts | bench_executor/morphrdb.py:25-26 | the shared directory is mounted at `/data/shared` and the engine's directory at `/data`, so `shared/` in the file names the shared directory |
| MorphRdb.MorphRdb.constructor | bench_executor/morphrdb.py:15-26 | the adapter keeps its data path, the image `blindreviewing/morph-rdb:v3.12.5`, the name `Morph-RDB` and the two volumes, and does not expect failure |
| MorphRdb.MorphRdb.ExecuteWithTimeout | bench_executor/morphrdb.py:32-43 | the run is of the fixed command with half the memory as heap, on the current `config.properties`; the arguments play no part |
| MorphRdb.MorphRdb.Execute | bench_executor/morphrdb.py:45-52 | a timed-out run gives false; otherwise the run's own verdict on the command and the current file is returned |
| MorphRdb.MorphRdb.ExecuteMapping | bench_executor/morphrdb.py:54-113 | on a rejected request, the error is returned and the file is left as it was; otherwise the file becomes the written section with every `[root]` that is followed by a line break removed, whatever it held before, which is exactly the table's option lines when no value ends in `[root]` or holds a line break; the run's verdict is returned, and the run sees the file as written |
| IniConfig.LookupAt | bench_executor/morphrdb.py:72-76 | in a section with distinct keys, every option is found under its own key |
| Paths.Join | bench_executor/burp.py:130 | an absolute second path is returned unchanged; the result always ends with the second path |
| Paths.JoinRelative | bench_executor/burp.py:130 | a relative path is appended to a directory ending in `/` with no second `/` |
| Burp.VolumesMounts | bench_executor/burp.py:46-49 | the engine's directory is mounted at `/data` and the shared directory at `/data/shared`, two distinct container paths |
| Burp.ArgumentsLayout | bench_executor/burp.py:130-138 | the list has length 2, 4 or 6; `-m` and the mapping path come first; `-o` and the output path come next iff an output file is given; `-b` and the base IRI come last iff one is given |
| Burp.ArgumentsRoundTrip | bench_executor/burp.py:130-138 | parsing the list as `flag value` pairs gives `-m` always, `-o` iff an output file is given, `-b` iff a base IRI is given, each with its value, and no other flag |
| Burp.LauncherWords | bench_executor/burp.py:76-79 | the command starts `java -Xmx<h> -Xms<h> -jar burp/burp.jar`, followed by `-vvvvvvvvvvvvv` iff verbose |
| Burp.CommandWords | bench_executor/burp.py:76-80 | split at its spaces, the command is the launcher's words followed by the arguments, when each argument is one word |
| Burp.MappingCommandWords | bench_executor/burp.py:130-140 | when the file names and the base IRI hold no spaces, the engine receives exactly the argument list after the launcher's words |
| Burp.Arguments | bench_executor/burp.py:130-138 | the argument list: `-m` and the mapping path, `-o` and the output path when given, `-b` and the base IRI when given; its layout is `Burp.ArgumentsLayout` |
| Burp.Launcher | bench_executor/burp.py:76-79 | the text of the command up to its arguments; its words are `Burp.LauncherWords` |
| Burp.Command | bench_executor/burp.py:76-80 | the launcher, a space, and the arguments joined by spaces; its words are `Burp.CommandWords` |
| Burp.Volumes | bench_executor/burp.py:48-49 | the two volume bindings; their paths are `Burp.VolumesMounts` |
| Burp.Burp.constructor | bench_executor/burp.py:40-49 | the adapter keeps its data path, verbosity, `expect_failure`, the image `kgconstruct/burp:v1.0.0`, the name `BURP` and the two volumes |
| Burp.Burp.ExecuteWithTimeout | bench_executor/burp.py:63-85 | the run is of the command for half the memory, the adapter's verbosity and the given arguments |
| Burp.Burp.Execute | bench_executor/burp.py:87-106 | a timed-out run gives false; otherwise the run's own verdict is returned |
| Burp.Burp.ExecuteMapping | bench_executor/burp.py:108-140 | the result is the run's verdict for the argument list built from the mapping file, output file and base IRI; the serialization has no effect |

## Left out

- MorphRdb.MorphRdb.ExecuteMapping: requires that no value that gets set holds `%`. These are the base names of the two files once the serialization is accepted, the database name once all six arguments are given, and the user, password, host and port once the database type is known. `configparser`'s interpolation raises `ValueError` on set for a `%` outside `%%` and `%(name)s`; the model excludes every `%` in a value rather than modelling that error path or those escapes.
- MorphRdb.PropertiesReadBack: holds only for arguments without line breaks. A multi-line value is written with tab-indented continuation lines, and how the engine would read those back is not modelled.
- Container.HeapSize: the source computes `int(total * (1/2))` in floating point. The model uses exact halving on naturals, so the float's rounding for very large totals is not captured.
- Burp.Burp.ExecuteMapping: `base_iri` is annotated `Optional[int]`, but it is joined into the command as a string; an `int` would make `" ".join` raise `TypeError`. The model takes it as a string.
- Burp.CommandWords: the command string is taken as split at its spaces. The container base class is not part of this model, so its exact splitting and quoting rules are not captured.
- The Docker container, the `Container` base class and `run_and_wait_for_exit` are not part of this model. A run is the parameter `run`, whose verdict already reflects the adapter's `expect_failure`; the `expectFailure` fields are kept for that reason and enter no contract of `Execute` or `ExecuteMapping`.
- `psutil.virtual_memory()` is an OS query; the total memory is a parameter.
- The `@timeout` decorator and its signals are not modelled; a run that times out is the outcome `TimedOut`. For BURP, `TimedOut` stands for the decorator's deadline only: the `TimeoutError` caught at bench_executor/burp.py:102 is the one imported from `timeout_decorator`. Morph-RDB's `_execute_with_timeout` carries no decorator, and bench_executor/morphrdb.py:48 catches Python's builtin `TimeoutError`; there `TimedOut` stands for such an error raised from the run itself.
- `os.path.abspath`, `os.umask` and `os.makedirs` are not modelled; the data path is taken as already absolute.
- The file operations are modelled as assignments to `configFile`, and reading the file back is assumed to give what was written. Text mode does not quite give that: on reading, universal newlines turn `\r` and `\r\n` into `\n`. A value holding `\r` is therefore not modelled, and in particular a value ending in `[root]\r` is glued to the next line as well.
- Logger calls and the unused `config_path` are left out, because they do not affect results.
- `root_mount_directory` is left out, because it depends on the module's name at run time.
- `configparser` lower-cases keys on set. This is not modelled, because every key the adapter sets is already lower case.
- bench_executor/__init__.py only holds imports.

## Findings

The class `MorphRdb.MorphRdb` writes the file as the source does, with `StripHeaderAsWritten`. `StripHeader` is the intended header removal, and the lemmas about it state what the file would then hold.

| source | as written | input that shows it | evidently intended | confidence | as-written member | corrected member |
|---|---|---|---|---|---|---|
| bench_executor/morphrdb.py:110-111 | `data.replace('[root]\n', '')` deletes every `[root]` followed by a line break, not only the header line | a mapping file named `m[root]` with no database arguments: its line `mappingdocument.file.path=shared/m[root]` loses its line break, and `output.file.path` is read as part of the mapping path | remove only the `[root]` header line at the start of the file | not executed | MorphRdb.RootSuffixLosesOutput | MorphRdb.PropertiesReadBack |
