/** The Morph-RDB adapter: Morph-RDB has no command-line options, so a mapping request is turned
    into a generated `config.properties` in the engine's private directory, and the engine is then
    started with a fixed command that names that file. */
module MorphRdb {
  import opened Wrappers
  import opened Text
  import opened Paths
  import opened Container
  import opened IniConfig

  const Version := "3.12.5"
  const Image := "blindreviewing/morph-rdb:v" + Version
  const EngineName := "Morph-RDB"

  /** The section the options are written under before its header is taken off again. */
  const Section := "root"
  const Header := "[root]\n"

  const ClassPath := ".:morph-rdb-dist-3.12.6.jar:dependency/*"
  const RunnerPackage := "es.upm.fi.dia.oeg.morph.r2rml.rdb.engine"
  const Runner := RunnerPackage + ".MorphRDBRunner"
  const ConfigFileName := "config.properties"

  /** The exceptions `execute_mapping` raises before any file is written. */
  datatype MappingError =
    | UnsupportedSerialization(serialization: string)  // NotImplementedError
    | UnknownRdbType(rdbType: string)                  // ValueError

  /** The `rdb_*` keyword arguments of `execute_mapping`, `None` where the caller left one out. */
  datatype RdbArgs = RdbArgs(
    username: Option<string>, password: Option<string>, host: Option<string>,
    port: Option<string>, name: Option<string>, rdbType: Option<string>)

  /** Database options are written only when all six arguments are given. */
  predicate Complete(rdb: RdbArgs) {
    && rdb.username.Some? && rdb.password.Some? && rdb.host.Some?
    && rdb.port.Some? && rdb.name.Some? && rdb.rdbType.Some?
  }

  /** Morph-RDB's name for a serialization format of the harness, or none for a format it lacks. */
  function EngineSerialization(serialization: string): (token: Option<string>)
    ensures token == Some("N-QUADS") <==> serialization == "nquads"
    ensures token == Some("N-TRIPLE") <==> serialization == "ntriples"
    ensures token == None <==> serialization != "nquads" && serialization != "ntriples"
  {
    if serialization == "nquads" then Some("N-QUADS")
    else if serialization == "ntriples" then Some("N-TRIPLE")
    else None
  }

  /** The JDBC settings of one database: driver class, database type and connection URL. */
  datatype Connection = Connection(driver: string, kind: string, url: string)

  /** The JDBC address of database `name` of kind `kind` served at `host`:`port`. */
  function Dsn(kind: string, host: string, port: string, name: string): string {
    "jdbc:" + kind + "://" + host + ":" + port + "/" + name
  }

  const MySqlOptions := "?allowPublicKeyRetrieval=true&useSSL=false"

  /** The settings for a database kind; only MySQL and PostgreSQL are known. */
  function ConnectionFor(rdbType: string, host: string, port: string, name: string): (c: Option<Connection>)
    ensures c.Some? <==> rdbType == "MySQL" || rdbType == "PostgreSQL"
    ensures rdbType == "MySQL" ==>
      c == Some(Connection("com.mysql.jdbc.Driver", "mysql", Dsn("mysql", host, port, name) + MySqlOptions))
    ensures rdbType == "PostgreSQL" ==>
      c == Some(Connection("org.postgresql.Driver", "postgresql", Dsn("postgresql", host, port, name)))
    ensures c.Some? ==> StartsWith(c.value.url, Dsn(c.value.kind, host, port, name))
  {
    if rdbType == "MySQL" then
      Some(Connection("com.mysql.jdbc.Driver", "mysql", Dsn("mysql", host, port, name) + MySqlOptions))
    else if rdbType == "PostgreSQL" then
      Some(Connection("org.postgresql.Driver", "postgresql", Dsn("postgresql", host, port, name)))
    else None
  }

  /** Where the engine finds a file of the shared directory, seen from its working directory `/data`. */
  function SharedPath(path: string): string {
    Join("shared", BaseName(path))
  }

  /** Every path the engine is given lies directly inside `shared`, whatever directory it came from. */
  lemma SharedPathShape(path: string)
    ensures SharedPath(path) == "shared/" + BaseName(path)
    ensures '/' !in SharedPath(path)[7..]
  {
    var name := BaseName(path);
    if name != "" {
      assert name[0] in name;
      assert name[..1] == [name[0]];
    }
    JoinRelative("shared", name);
    assert SharedPath(path)[7..] == name;
  }

  const BaseKeys := ["mappingdocument.file.path", "output.file.path", "output.rdflanguage"]
  const DatabaseKeys := [
    "database.name[0]", "database.driver[0]", "database.type[0]", "database.url[0]",
    "database.user[0]", "database.pwd[0]", "no_of_database"]

  /** Every key `execute_mapping` can set, in the order it sets them. */
  const ConfigKeys := BaseKeys + DatabaseKeys

  lemma ConfigKeysDistinct()
    ensures Distinct(ConfigKeys)
  {
  }

  function BaseOptions(mappingFile: string, outputFile: string, token: string): Table {
    [ ("mappingdocument.file.path", SharedPath(mappingFile)),
      ("output.file.path", SharedPath(outputFile)),
      ("output.rdflanguage", token) ]
  }

  function DatabaseOptions(rdb: RdbArgs, c: Connection): Table
    requires Complete(rdb)
  {
    [ ("database.name[0]", rdb.name.value),
      ("database.driver[0]", c.driver),
      ("database.type[0]", c.kind),
      ("database.url[0]", c.url),
      ("database.user[0]", rdb.username.value),
      ("database.pwd[0]", rdb.password.value),
      ("no_of_database", "1") ]
  }

  /** The database options are all new to the section, so setting them appends them in order. */
  lemma SetDatabaseOptions(mappingFile: string, outputFile: string, token: string, rdb: RdbArgs, c: Connection)
    requires Complete(rdb)
    ensures var base := BaseOptions(mappingFile, outputFile, token);
      SetAll(base, DatabaseOptions(rdb, c)) == base + DatabaseOptions(rdb, c)
  {
    var base := BaseOptions(mappingFile, outputFile, token);
    KeysConcat(base, DatabaseOptions(rdb, c));
    assert Keys(base) == BaseKeys;
    assert Keys(DatabaseOptions(rdb, c)) == DatabaseKeys;
    ConfigKeysDistinct();
    SetAllFresh(base, DatabaseOptions(rdb, c));
  }

  /** The options `execute_mapping` puts in its section, or the exception it raises first. */
  function ConfigTable(mappingFile: string, outputFile: string, serialization: string, rdb: RdbArgs)
    : (r: Result<Table, MappingError>)
    ensures EngineSerialization(serialization) == None ==> r == Failure(UnsupportedSerialization(serialization))
    ensures r.Failure? <==>
      || EngineSerialization(serialization) == None
      || (Complete(rdb) && rdb.rdbType.value != "MySQL" && rdb.rdbType.value != "PostgreSQL")
    ensures EngineSerialization(serialization).Some? && r.Failure? && Complete(rdb) ==>
      r == Failure(UnknownRdbType(rdb.rdbType.value))
  {
    match EngineSerialization(serialization)
    case None => Failure(UnsupportedSerialization(serialization))
    case Some(token) =>
      var base := BaseOptions(mappingFile, outputFile, token);
      if !Complete(rdb) then Success(base)
      else match ConnectionFor(rdb.rdbType.value, rdb.host.value, rdb.port.value, rdb.name.value)
        case None => Failure(UnknownRdbType(rdb.rdbType.value))
        case Some(c) => Success(base + DatabaseOptions(rdb, c))
  }

  lemma BaseOptionsKeys(mappingFile: string, outputFile: string, token: string)
    ensures Keys(BaseOptions(mappingFile, outputFile, token)) == BaseKeys
  {
  }

  lemma DatabaseOptionsKeys(rdb: RdbArgs, c: Connection)
    requires Complete(rdb)
    ensures Keys(DatabaseOptions(rdb, c)) == DatabaseKeys
  {
  }

  /** Which options the section holds: the three base options, followed by the seven database
      options exactly when all six database arguments are given; no key appears twice. */
  lemma ConfigTableKeys(mappingFile: string, outputFile: string, serialization: string, rdb: RdbArgs)
    requires ConfigTable(mappingFile, outputFile, serialization, rdb).Success?
    ensures var t := ConfigTable(mappingFile, outputFile, serialization, rdb).value;
      && Keys(t) == BaseKeys + (if Complete(rdb) then DatabaseKeys else [])
      && Distinct(Keys(t))
  {
    var base := BaseOptions(mappingFile, outputFile, EngineSerialization(serialization).value);
    BaseOptionsKeys(mappingFile, outputFile, EngineSerialization(serialization).value);
    ConfigKeysDistinct();
    if Complete(rdb) {
      var c := ConnectionFor(rdb.rdbType.value, rdb.host.value, rdb.port.value, rdb.name.value).value;
      KeysConcat(base, DatabaseOptions(rdb, c));
      DatabaseOptionsKeys(rdb, c);
    } else {
      assert Keys(base) == ConfigKeys[..3];
    }
  }

  /** The section's first three options as `config['root'].get(key)` reads them back. */
  lemma ConfigTableBaseValues(mappingFile: string, outputFile: string, serialization: string, rdb: RdbArgs)
    requires ConfigTable(mappingFile, outputFile, serialization, rdb).Success?
    ensures var t := ConfigTable(mappingFile, outputFile, serialization, rdb).value;
      && Lookup(t, "mappingdocument.file.path") == Some(SharedPath(mappingFile))
      && Lookup(t, "output.file.path") == Some(SharedPath(outputFile))
      && Lookup(t, "output.rdflanguage") == EngineSerialization(serialization)
  {
    var t := ConfigTable(mappingFile, outputFile, serialization, rdb).value;
    ConfigTableKeys(mappingFile, outputFile, serialization, rdb);
    LookupAt(t, 0);
    LookupAt(t, 1);
    LookupAt(t, 2);
  }

  /** Without all six database arguments, no database option is written. */
  lemma ConfigTableWithoutDatabase(mappingFile: string, outputFile: string, serialization: string, rdb: RdbArgs)
    requires ConfigTable(mappingFile, outputFile, serialization, rdb).Success? && !Complete(rdb)
    ensures var t := ConfigTable(mappingFile, outputFile, serialization, rdb).value;
      forall i :: 0 <= i < |DatabaseKeys| ==> Lookup(t, DatabaseKeys[i]) == None
  {
    var t := ConfigTable(mappingFile, outputFile, serialization, rdb).value;
    ConfigTableKeys(mappingFile, outputFile, serialization, rdb);
    ConfigKeysDistinct();
    forall i | 0 <= i < |DatabaseKeys| ensures Lookup(t, DatabaseKeys[i]) == None {
      assert DatabaseKeys[i] == ConfigKeys[3 + i];
      assert DatabaseKeys[i] !in Keys(t) by {
        assert forall j :: 0 <= j < 3 ==> Keys(t)[j] == ConfigKeys[j];
      }
      LookupAbsent(t, DatabaseKeys[i]);
    }
  }

  /** With all six database arguments, the credentials and the database count read back. */
  lemma ConfigTableDatabaseValues(mappingFile: string, outputFile: string, serialization: string, rdb: RdbArgs)
    requires ConfigTable(mappingFile, outputFile, serialization, rdb).Success? && Complete(rdb)
    ensures var t := ConfigTable(mappingFile, outputFile, serialization, rdb).value;
      && Lookup(t, "database.name[0]") == Some(rdb.name.value)
      && Lookup(t, "database.user[0]") == Some(rdb.username.value)
      && Lookup(t, "database.pwd[0]") == Some(rdb.password.value)
      && Lookup(t, "no_of_database") == Some("1")
  {
    var t := ConfigTable(mappingFile, outputFile, serialization, rdb).value;
    ConfigTableKeys(mappingFile, outputFile, serialization, rdb);
    LookupAt(t, 3);
    LookupAt(t, 7);
    LookupAt(t, 8);
    LookupAt(t, 9);
  }

  /** The directories in front of the mapping and output files make no difference to the section. */
  lemma ConfigTableIgnoresDirectories(mappingDir: string, mappingFile: string, outputDir: string,
                                      outputFile: string, serialization: string, rdb: RdbArgs)
    ensures ConfigTable(mappingDir + "/" + mappingFile, outputDir + "/" + outputFile, serialization, rdb)
         == ConfigTable(mappingFile, outputFile, serialization, rdb)
  {
    BaseNameDropsDirectories(mappingDir, mappingFile);
    BaseNameDropsDirectories(outputDir, outputFile);
  }

  /** A character of a suffix is a character of the whole string. */
  lemma NotInSuffix(s: string, r: string, c: char)
    requires EndsWith(s, r) && c !in s
    ensures c !in r
  {
    forall i | 0 <= i < |r| ensures r[i] != c {
      assert r[i] == s[|s| - |r| + i];
    }
  }

  lemma BaseKeysPlain()
    ensures PlainKeys(BaseKeys)
  {
  }

  lemma DatabaseKeysPlain()
    ensures PlainKeys(DatabaseKeys)
  {
  }

  lemma BaseOptionsFlat(mappingFile: string, outputFile: string, token: string)
    requires '\n' !in mappingFile && '\n' !in outputFile && '\n' !in token
    ensures FlatSafe(BaseOptions(mappingFile, outputFile, token))
  {
    SharedPathShape(mappingFile);
    SharedPathShape(outputFile);
    NotInSuffix(mappingFile, BaseName(mappingFile), '\n');
    NotInSuffix(outputFile, BaseName(outputFile), '\n');
    assert '\n' !in "shared/";
    BaseOptionsKeys(mappingFile, outputFile, token);
    BaseKeysPlain();
  }

  lemma DatabaseOptionsFlat(rdb: RdbArgs, c: Connection)
    requires Complete(rdb)
    requires '\n' !in rdb.name.value && '\n' !in rdb.username.value && '\n' !in rdb.password.value
    requires '\n' !in c.driver && '\n' !in c.kind && '\n' !in c.url
    ensures FlatSafe(DatabaseOptions(rdb, c))
  {
    DatabaseOptionsKeys(rdb, c);
    DatabaseKeysPlain();
  }

  lemma MySqlOptionsSingleLine()
    ensures '\n' !in MySqlOptions
  {
  }

  lemma DsnSingleLine(kind: string, host: string, port: string, name: string)
    requires '\n' !in kind && '\n' !in host && '\n' !in port && '\n' !in name
    ensures '\n' !in Dsn(kind, host, port, name)
  {
  }

  lemma ConnectionSingleLine(rdbType: string, host: string, port: string, name: string)
    requires ConnectionFor(rdbType, host, port, name).Some?
    requires '\n' !in host && '\n' !in port && '\n' !in name
    ensures var c := ConnectionFor(rdbType, host, port, name).value;
      '\n' !in c.driver && '\n' !in c.kind && '\n' !in c.url
  {
    MySqlOptionsSingleLine();
    var c := ConnectionFor(rdbType, host, port, name).value;
    DsnSingleLine(c.kind, host, port, name);
  }

  /** No argument of `execute_mapping` holds a line break. */
  predicate SingleLineArgs(mappingFile: string, outputFile: string, rdb: RdbArgs) {
    && '\n' !in mappingFile && '\n' !in outputFile
    && (Complete(rdb) ==>
      && '\n' !in rdb.username.value && '\n' !in rdb.password.value && '\n' !in rdb.host.value
      && '\n' !in rdb.port.value && '\n' !in rdb.name.value)
  }

  /** For single-line arguments the section is flat: plain keys and one line per value. */
  lemma ConfigTableFlat(mappingFile: string, outputFile: string, serialization: string, rdb: RdbArgs)
    requires ConfigTable(mappingFile, outputFile, serialization, rdb).Success?
    requires SingleLineArgs(mappingFile, outputFile, rdb)
    ensures FlatSafe(ConfigTable(mappingFile, outputFile, serialization, rdb).value)
  {
    var t := ConfigTable(mappingFile, outputFile, serialization, rdb).value;
    var token := EngineSerialization(serialization).value;
    var base := BaseOptions(mappingFile, outputFile, token);
    BaseOptionsFlat(mappingFile, outputFile, token);
    if Complete(rdb) {
      var c := ConnectionFor(rdb.rdbType.value, rdb.host.value, rdb.port.value, rdb.name.value).value;
      ConnectionSingleLine(rdb.rdbType.value, rdb.host.value, rdb.port.value, rdb.name.value);
      DatabaseOptionsFlat(rdb, c);
      FlatSafeConcat(base, DatabaseOptions(rdb, c));
      assert t == base + DatabaseOptions(rdb, c);
    } else {
      assert t == base;
    }
  }

  /** With the intended header removal, the file the engine reads, taken as `key=value` lines,
      gives back exactly the options set: no line is split or joined. */
  lemma PropertiesReadBack(mappingFile: string, outputFile: string, serialization: string, rdb: RdbArgs)
    requires ConfigTable(mappingFile, outputFile, serialization, rdb).Success?
    requires SingleLineArgs(mappingFile, outputFile, rdb)
    ensures var t := ConfigTable(mappingFile, outputFile, serialization, rdb).value;
      && ReadFlat(StripHeader(WriteSection(Section, t))) == t
      && ReadFlat(PropertiesText(t)) == t
  {
    var t := ConfigTable(mappingFile, outputFile, serialization, rdb).value;
    ConfigTableFlat(mappingFile, outputFile, serialization, rdb);
    ReadFlatOfOptionLines(t);
    StripHeaderYieldsProperties(t);
  }

  /** No key the adapter sets starts with `[`. */
  lemma ConfigKeysNoBracketStart()
    ensures forall i :: 0 <= i < |ConfigKeys| ==> !StartsWith(ConfigKeys[i], "[")
  {
    forall i | 0 <= i < |ConfigKeys|
      ensures !StartsWith(ConfigKeys[i], "[")
    {
      assert ConfigKeys[i][0] != '[';
    }
  }

  /** After the header removal as written, no line of the section's file starts with `[`: the
      header is gone and no line reads `[root]`, even where values end in `[root]`. */
  lemma AsWrittenHasNoSectionLine(t: Table)
    requires FlatSafe(t)
    requires forall i :: 0 <= i < |t| ==> !StartsWith(t[i].0, "[")
    ensures var s := StripHeaderAsWritten(WriteSection(Section, t));
      && !StartsWith(s, Header)
      && LinesAvoid(s, '[', true)
  {
    OptionLinesAvoid(t, '[');
    assert WriteSection(Section, t) == Header + (OptionLines(t) + "\n");
    ReplaceAtHeader(OptionLines(t) + "\n");
    HeaderShape();
    ReplaceKeepsLinesAvoid(OptionLines(t) + "\n", Header, '[', true);
  }

  /** For single-line arguments, the file `execute_mapping` leaves has no section-header line. */
  lemma ConfigFileHasNoSectionLine(mappingFile: string, outputFile: string, serialization: string, rdb: RdbArgs)
    requires ConfigTable(mappingFile, outputFile, serialization, rdb).Success?
    requires SingleLineArgs(mappingFile, outputFile, rdb)
    ensures var s := StripHeaderAsWritten(WriteSection(Section, ConfigTable(mappingFile, outputFile, serialization, rdb).value));
      && !StartsWith(s, Header)
      && LinesAvoid(s, '[', true)
  {
    var t := ConfigTable(mappingFile, outputFile, serialization, rdb).value;
    ConfigTableFlat(mappingFile, outputFile, serialization, rdb);
    ConfigTableKeys(mappingFile, outputFile, serialization, rdb);
    ConfigKeysNoBracketStart();
    forall i | 0 <= i < |t|
      ensures !StartsWith(t[i].0, "[")
    {
      assert t[i].0 == Keys(t)[i] == ConfigKeys[i];
    }
    AsWrittenHasNoSectionLine(t);
  }

  /** The command `_execute_with_timeout` hands to the container, as the words it is made of;
      the method's arguments play no part in it. */
  function Command(heap: nat): string {
    JoinWith(" ", ["java", "-Xmx" + Decimal(heap), "-Xms" + Decimal(heap), "-cp", ClassPath, Runner, "/data", ConfigFileName])
  }

  lemma ClassPathIsWord()
    ensures IsWord(ClassPath)
  {
  }

  lemma RunnerIsWord()
    ensures IsWord(Runner)
  {
    assert ' ' !in RunnerPackage;
    assert ' ' !in ".MorphRDBRunner";
  }

  /** The engine is started as `java` with its heap set to `heap` both ways, the jar on its class
      path, the runner class, the working directory `/data` and the generated file's name. */
  lemma CommandWords(heap: nat)
    ensures Words(Command(heap)) == [
      "java", "-Xmx" + Decimal(heap), "-Xms" + Decimal(heap), "-cp", ClassPath, Runner, "/data", ConfigFileName]
  {
    NumberedFlagIsWord("-Xmx", heap);
    NumberedFlagIsWord("-Xms", heap);
    RunnerIsWord();
    ClassPathIsWord();
    WordsOfJoin(["java", "-Xmx" + Decimal(heap), "-Xms" + Decimal(heap), "-cp", ClassPath, Runner, "/data", ConfigFileName]);
  }

  /** The heap size can be read back from the command: it is the number after `-Xmx`. */
  lemma CommandHeap(heap: nat)
    ensures |Words(Command(heap))| == 8
    ensures StartsWith(Words(Command(heap))[1], "-Xmx")
    ensures ParseDecimal(Words(Command(heap))[1][4..]) == Some(heap)
  {
    CommandWords(heap);
    var flag := "-Xmx" + Decimal(heap);
    assert flag[4..] == Decimal(heap);
    DecimalRoundTrip(heap);
  }

  /** The config.properties the adapter means to leave: the section's options, without a header. */
  function PropertiesText(t: Table): string {
    OptionLines(t) + "\n"
  }

  /** Taking the section header off the written file, as intended: only the header line at its start. */
  function StripHeader(data: string): string {
    if StartsWith(data, Header) then data[|Header|..] else data
  }

  /** Taking the section header off as the adapter does: `data.replace('[root]\n', '')`, which deletes
      every occurrence, also one that ends an option's value. */
  function StripHeaderAsWritten(data: string): string {
    ReplaceAll(data, Header, "")
  }

  /** Taking the header off the written section leaves exactly the options, one `key=value` line each. */
  lemma StripHeaderYieldsProperties(t: Table)
    ensures StripHeader(WriteSection(Section, t)) == PropertiesText(t)
  {
    assert WriteSection(Section, t) == Header + PropertiesText(t);
  }

  lemma HeaderShape()
    ensures |Header| == 7 && Header[0] == '[' && Header[6] == '\n'
    ensures Header[..6] == "[root]" && '\n' !in Header[..6]
  {
  }

  /** An option line ends in `[root]` only when its value does. */
  lemma OptionTextRootEnded(k: string, v: string)
    requires !EndsWith(v, "[root]")
    ensures !EndsWith(k + "=" + v, "[root]")
  {
    var x := k + "=" + v;
    if |x| >= 6 {
      if |v| >= 6 {
        assert x[|x| - 6..] == v[|v| - 6..];
      } else {
        assert x[|x| - 6..][5 - |v|] == x[|k|] == '=';
        assert "[root]"[5 - |v|] != '=';
      }
    }
  }

  /** No option of `t` has a line break in it or a value ending in `[root]`. */
  predicate NoRootSuffix(t: Table) {
    forall i :: 0 <= i < |t| ==> '\n' !in t[i].0 && '\n' !in t[i].1 && !EndsWith(t[i].1, "[root]")
  }

  /** Where no option line ends in `[root]`, `replace` finds no header among the option lines. */
  lemma {:induction false} ReplaceInOptionLines(t: Table)
    requires NoRootSuffix(t)
    ensures ReplaceAll(OptionLines(t) + "\n", Header, "") == OptionLines(t) + "\n"
  {
    HeaderShape();
    if t == [] {
      assert |OptionLines(t) + "\n"| < |Header|;
    } else {
      var k, v := t[0].0, t[0].1;
      NoNewlineNoIndent(v);
      var x := k + "=" + v;
      var rest := OptionLines(t[1..]) + "\n";
      var s := x + "\n" + rest;
      assert OptionLine(t[0]) == x + "\n";
      assert OptionLines(t) + "\n" == s;
      OptionTextRootEnded(k, v);
      NoMatchWithinLine(x, rest, Header);
      ReplaceSkip(s, Header, "", |x| + 1);
      assert s[..|x| + 1] == x + "\n" && s[|x| + 1..] == rest;
      ReplaceInOptionLines(t[1..]);
    }
  }

  /** `replace` takes off the header at the start and leaves the options alone. */
  lemma ReplaceDropsHeader(r: string)
    requires ReplaceAll(r, Header, "") == r
    ensures StripHeaderAsWritten(Header + r) == r
  {
    ReplaceAtHeader(r);
  }

  /** The header removal as written agrees with the intended one when no value ends in `[root]`. */
  lemma AsWrittenStripAgrees(t: Table)
    requires NoRootSuffix(t)
    ensures StripHeaderAsWritten(WriteSection(Section, t)) == StripHeader(WriteSection(Section, t))
  {
    assert WriteSection(Section, t) == Header + (OptionLines(t) + "\n");
    ReplaceInOptionLines(t);
    ReplaceDropsHeader(OptionLines(t) + "\n");
    StripHeaderYieldsProperties(t);
  }

  /** When no value of the section ends in `[root]` or holds a line break, the file the adapter
      leaves, with its header taken off as written, reads back as exactly the table that was built. */
  lemma AsWrittenReadBack(mappingFile: string, outputFile: string, serialization: string, rdb: RdbArgs)
    requires ConfigTable(mappingFile, outputFile, serialization, rdb).Success?
    requires NoRootSuffix(ConfigTable(mappingFile, outputFile, serialization, rdb).value)
    ensures var t := ConfigTable(mappingFile, outputFile, serialization, rdb).value;
      ReadFlat(StripHeaderAsWritten(WriteSection(Section, t))) == t
  {
    var t := ConfigTable(mappingFile, outputFile, serialization, rdb).value;
    AsWrittenStripAgrees(t);
    StripHeaderYieldsProperties(t);
    assert FlatSafe(t) by {
      ConfigTableKeys(mappingFile, outputFile, serialization, rdb);
      BaseKeysPlain();
      DatabaseKeysPlain();
      PlainKeysConcat(BaseKeys, if Complete(rdb) then DatabaseKeys else []);
    }
    ReadFlatOfOptionLines(t);
  }

  lemma PlainKeysConcat(a: seq<string>, b: seq<string>)
    requires PlainKeys(a) && PlainKeys(b)
    ensures PlainKeys(a + b)
  {
    assert forall i :: |a| <= i < |a + b| ==> (a + b)[i] == b[i - |a|];
  }

  lemma OptionLinesOfThree(e1: Entry, e2: Entry, e3: Entry)
    ensures OptionLines([e1, e2, e3]) == OptionLine(e1) + OptionLine(e2) + OptionLine(e3)
  {
    assert [e1, e2, e3][1..] == [e2, e3];
    assert [e2, e3][1..] == [e3];
    assert OptionLines([e3]) == OptionLine(e3) + OptionLines([]);
    assert OptionLine(e3) + "" == OptionLine(e3);
  }

  /** `replace` skips a stretch of text without `[`, the header's first character. */
  lemma ReplaceSkipsPlain(a: string, r: string)
    requires '[' !in a
    ensures StripHeaderAsWritten(a + r) == a + StripHeaderAsWritten(r)
  {
    HeaderShape();
    assert (a + r)[..|a|] == a && (a + r)[|a|..] == r;
    NoMatchWithoutFirst(a + r, Header, |a|);
    ReplaceSkip(a + r, Header, "", |a|);
  }

  /** `replace` deletes a header it meets at the start. */
  lemma ReplaceAtHeader(r: string)
    ensures StripHeaderAsWritten(Header + r) == StripHeaderAsWritten(r)
  {
    HeaderShape();
    assert (Header + r)[..|Header|] == Header;
    assert (Header + r)[|Header|..] == r;
  }

  /** `replace` also deletes a header that ends the text `a` of an option line, gluing that line to
      the next one. */
  lemma ReplaceGluesLines(a: string, r: string)
    requires '[' !in a && '[' !in r
    ensures StripHeaderAsWritten(Header + a + Header + r) == a + r
  {
    assert Header + a + Header + r == Header + (a + (Header + r));
    ReplaceAtHeader(a + (Header + r));
    ReplaceSkipsPlain(a, Header + r);
    ReplaceAtHeader(r);
    ReplaceSkipsPlain(r, "");
    assert r + "" == r;
  }

  /** The section written for three options whose first value ends in `[root]`. */
  lemma RootSuffixSection(k1: string, v1: string, k2: string, v2: string, k3: string, v3: string)
    requires '\n' !in v1 + v2 + v3
    ensures WriteSection(Section, [(k1, v1 + "[root]"), (k2, v2), (k3, v3)])
         == Header + (k1 + "=" + v1) + Header + (k2 + "=" + v2 + "\n" + (k3 + "=" + v3 + "\n") + "\n")
  {
    HeaderShape();
    assert '\n' !in v1 + "[root]";
    NoNewlineNoIndent(v1 + "[root]");
    NoNewlineNoIndent(v2);
    NoNewlineNoIndent(v3);
    OptionLinesOfThree((k1, v1 + "[root]"), (k2, v2), (k3, v3));
  }

  lemma Regroup(k: string, v: string, w: string, rest: string)
    ensures (k + "=" + v) + (w + "\n" + rest) == k + "=" + (v + w) + "\n" + rest
  {
  }

  /** The file as the adapter leaves it for three options whose first value ends in `[root]`. */
  lemma RootSuffixStripped(k1: string, v1: string, k2: string, v2: string, k3: string, v3: string)
    requires '[' !in k1 && '[' !in v1 && '[' !in k2 && '[' !in v2 && '[' !in k3 && '[' !in v3
    requires '\n' !in v1 && '\n' !in v2 && '\n' !in v3
    ensures StripHeaderAsWritten(WriteSection(Section, [(k1, v1 + "[root]"), (k2, v2), (k3, v3)]))
         == (k1 + "=" + v1) + (k2 + "=" + v2 + "\n" + (k3 + "=" + v3 + "\n") + "\n")
  {
    var a := k1 + "=" + v1;
    var r := k2 + "=" + v2 + "\n" + (k3 + "=" + v3 + "\n") + "\n";
    RootSuffixSection(k1, v1, k2, v2, k3, v3);
    assert '[' !in a && '[' !in r;
    ReplaceGluesLines(a, r);
  }

  /** Two option lines glued together read back as one option, followed by the third. */
  lemma GluedReadBack(k1: string, v1: string, k2: string, v2: string, k3: string, v3: string)
    requires '\n' !in k1 && '\n' !in v1 && '\n' !in k2 && '\n' !in v2 && '\n' !in k3 && '\n' !in v3
    requires '=' !in k1 && '=' !in k3
    ensures ReadFlat((k1 + "=" + v1) + (k2 + "=" + v2 + "\n" + (k3 + "=" + v3 + "\n") + "\n"))
         == [(k1, v1 + k2 + "=" + v2), (k3, v3)]
  {
    var l3 := k3 + "=" + v3 + "\n";
    Regroup(k1, v1, k2 + "=" + v2, l3 + "\n");
    assert k2 + "=" + v2 + "\n" + l3 + "\n" == (k2 + "=" + v2) + "\n" + (l3 + "\n");
    assert v1 + k2 + "=" + v2 == v1 + (k2 + "=" + v2);
    ReadFlatLine(k1, v1 + k2 + "=" + v2, l3 + "\n");
    ReadFlatLine(k3, v3, "\n");
    assert ReadFlat("\n") == ReadFlat("");
  }

  /** Three options whose first value ends in `[root]`: after the header removal as written, the
      engine reads the second option as part of the first one's value and no longer finds it. */
  lemma RootSuffixGluesOptions(k1: string, v1: string, k2: string, v2: string, k3: string, v3: string)
    requires '[' !in k1 && '[' !in v1 && '[' !in k2 && '[' !in v2 && '[' !in k3 && '[' !in v3
    requires '\n' !in k1 && '\n' !in v1 && '\n' !in k2 && '\n' !in v2 && '\n' !in k3 && '\n' !in v3
    requires '=' !in k1 && '=' !in k3
    ensures var t := [(k1, v1 + "[root]"), (k2, v2), (k3, v3)];
      ReadFlat(StripHeaderAsWritten(WriteSection(Section, t))) == [(k1, v1 + k2 + "=" + v2), (k3, v3)]
  {
    RootSuffixStripped(k1, v1, k2, v2, k3, v3);
    GluedReadBack(k1, v1, k2, v2, k3, v3);
  }

  lemma BaseKeysBracketFree()
    ensures forall i :: 0 <= i < |BaseKeys| ==> '[' !in BaseKeys[i]
  {
  }

  lemma TokenPlain(serialization: string)
    requires EngineSerialization(serialization).Some?
    ensures '[' !in EngineSerialization(serialization).value && '\n' !in EngineSerialization(serialization).value
  {
  }

  /** The path the engine is given for a file: `shared/` and the file's base name, with no `[` or
      line break unless the file name has one. */
  lemma SharedPathPlain(path: string)
    requires '[' !in path && '\n' !in path
    ensures '[' !in SharedPath(path) && '\n' !in SharedPath(path)
  {
    SharedPathShape(path);
    NotInSuffix(path, BaseName(path), '[');
    NotInSuffix(path, BaseName(path), '\n');
    assert '[' !in "shared/" && '\n' !in "shared/";
  }

  /** The section for a mapping file whose name ends in `[root]` and a request without database
      options, and what is read back from the file the adapter leaves for it. */
  lemma RootSuffixTable(stem: string, outputFile: string, serialization: string, rdb: RdbArgs)
    requires '/' !in stem
    requires EngineSerialization(serialization).Some? && !Complete(rdb)
    ensures ConfigTable(stem + "[root]", outputFile, serialization, rdb)
         == Success([(BaseKeys[0], "shared/" + stem + "[root]"), (BaseKeys[1], SharedPath(outputFile)),
                     (BaseKeys[2], EngineSerialization(serialization).value)])
  {
    var mappingFile := stem + "[root]";
    assert '/' !in mappingFile by {
      assert '/' !in "[root]";
    }
    AfterLastWithout(mappingFile, '/');
    SharedPathShape(mappingFile);
    assert "shared/" + mappingFile == "shared/" + stem + "[root]";
  }

  lemma RootSuffixReadBack(stem: string, outputFile: string, serialization: string, rdb: RdbArgs)
    requires '/' !in stem && '[' !in stem && '\n' !in stem
    requires '[' !in outputFile && '\n' !in outputFile
    requires EngineSerialization(serialization).Some? && !Complete(rdb)
    ensures ConfigTable(stem + "[root]", outputFile, serialization, rdb).Success?
    ensures var t := ConfigTable(stem + "[root]", outputFile, serialization, rdb).value;
      var token := EngineSerialization(serialization).value;
      ReadFlat(StripHeaderAsWritten(WriteSection(Section, t)))
        == [(BaseKeys[0], "shared/" + stem + BaseKeys[1] + "=" + SharedPath(outputFile)), (BaseKeys[2], token)]
  {
    RootSuffixTable(stem, outputFile, serialization, rdb);
    var token := EngineSerialization(serialization).value;
    var v1 := "shared/" + stem;
    assert '[' !in v1 && '\n' !in v1 by {
      assert '[' !in "shared/" && '\n' !in "shared/";
    }
    SharedPathPlain(outputFile);
    TokenPlain(serialization);
    BaseKeysBracketFree();
    BaseKeysPlain();
    RootSuffixGluesOptions(BaseKeys[0], v1, BaseKeys[1], SharedPath(outputFile), BaseKeys[2], token);
  }

  /** A mapping file whose name ends in `[root]`, for a request without database options: the file
      the adapter leaves no longer holds the output path at all, because its line is glued to the
      mapping path's. */
  lemma RootSuffixLosesOutput(stem: string, outputFile: string, serialization: string, rdb: RdbArgs)
    requires '/' !in stem && '[' !in stem && '\n' !in stem
    requires '[' !in outputFile && '\n' !in outputFile
    requires EngineSerialization(serialization).Some? && !Complete(rdb)
    ensures ConfigTable(stem + "[root]", outputFile, serialization, rdb).Success?
    ensures var t := ConfigTable(stem + "[root]", outputFile, serialization, rdb).value;
      && Lookup(t, "output.file.path") == Some(SharedPath(outputFile))
      && Lookup(ReadFlat(StripHeaderAsWritten(WriteSection(Section, t))), "output.file.path") == None
  {
    var mappingFile := stem + "[root]";
    var t := ConfigTable(mappingFile, outputFile, serialization, rdb).value;
    RootSuffixReadBack(stem, outputFile, serialization, rdb);
    var glued := ReadFlat(StripHeaderAsWritten(WriteSection(Section, t)));
    assert Lookup(glued, BaseKeys[1]) == None by {
      ConfigKeysDistinct();
      assert BaseKeys[0] != BaseKeys[1] && BaseKeys[2] != BaseKeys[1];
      assert glued[1..][1..] == [];
      assert Lookup(glued[1..], BaseKeys[1]) == None;
    }
    assert Lookup(t, BaseKeys[1]) == Some(SharedPath(outputFile)) by {
      ConfigTableKeys(mappingFile, outputFile, serialization, rdb);
      LookupAt(t, 1);
    }
  }

  /** The volumes of the engine's container for the case directory `dataPath`. */
  function Volumes(dataPath: string): seq<string> {
    [Binding(dataPath + "/shared", "/data/shared"), Binding(dataPath + "/morphrdb", "/data")]
  }

  /** The shared directory is mounted under the engine's working directory `/data`, which is the
      engine's own directory, so `shared/<name>` in the generated file names a shared file. */
  lemma VolumesMounts(dataPath: string)
    ensures |Volumes(dataPath)| == 2
    ensures HostOf(Volumes(dataPath)[0]) == dataPath + "/shared" && TargetOf(Volumes(dataPath)[0]) == "/data/shared"
    ensures HostOf(Volumes(dataPath)[1]) == dataPath + "/morphrdb" && TargetOf(Volumes(dataPath)[1]) == "/data"
    ensures TargetOf(Volumes(dataPath)[0]) == TargetOf(Volumes(dataPath)[1]) + "/" + "shared"
  {
    assert ':' !in "/data/shared" && ':' !in "/data";
    BindingRoundTrip(dataPath + "/shared", "/data/shared");
    BindingRoundTrip(dataPath + "/morphrdb", "/data");
  }

  /** The database settings as `config['root'].get(key)` reads them back. */
  lemma ConfigTableConnection(mappingFile: string, outputFile: string, serialization: string, rdb: RdbArgs)
    requires ConfigTable(mappingFile, outputFile, serialization, rdb).Success? && Complete(rdb)
    ensures var t := ConfigTable(mappingFile, outputFile, serialization, rdb).value;
      var c := ConnectionFor(rdb.rdbType.value, rdb.host.value, rdb.port.value, rdb.name.value);
      && c.Some?
      && Lookup(t, "database.driver[0]") == Some(c.value.driver)
      && Lookup(t, "database.type[0]") == Some(c.value.kind)
      && Lookup(t, "database.url[0]") == Some(c.value.url)
  {
    var t := ConfigTable(mappingFile, outputFile, serialization, rdb).value;
    ConfigTableKeys(mappingFile, outputFile, serialization, rdb);
    LookupAt(t, 4);
    LookupAt(t, 5);
    LookupAt(t, 6);
  }

  /** The adapter's object: the image and volumes it hands to its container base class, and the
      contents of `<data path>/morphrdb/config.properties`, the only state `execute_mapping` changes. */
  class MorphRdb {
    /** The image and the name handed to the container base class. */
    const image: string
    const name: string
    const dataPath: string
    const volumes: seq<string>
    const expectFailure: bool
    /** `None` while there is no such file. */
    var configFile: Option<string>

    /** `dataPath` is the case's data directory, already made absolute; `existingConfig` is what a
        previous run may have left in config.properties. */
    constructor (dataPath: string, existingConfig: Option<string>)
      ensures this.dataPath == dataPath
      ensures volumes == Volumes(dataPath)
      ensures !expectFailure
      ensures configFile == existingConfig
      ensures image == Image && name == EngineName
    {
      image, name := Image, EngineName;
      this.dataPath := dataPath;
      volumes := Volumes(dataPath);
      expectFailure := false;
      configFile := existingConfig;
    }

    /** Starts the engine with half of `totalMemory` as its heap; nothing here bounds the run's time.
        The engine reads its whole request from config.properties, so the run sees that file too. */
    method ExecuteWithTimeout(arguments: seq<string>, totalMemory: nat, run: (string, Option<string>) -> RunOutcome)
      returns (outcome: RunOutcome)
      ensures outcome == run(Command(HeapSize(totalMemory)), configFile)
    {
      var maxHeap := HeapSize(totalMemory);
      var cmd := JoinWith(" ", ["java", "-Xmx" + Decimal(maxHeap), "-Xms" + Decimal(maxHeap), "-cp", ClassPath,
        Runner, "/data", ConfigFileName]);
      outcome := run(cmd, configFile);
    }

    /** A run that times out counts as a failure; otherwise the run's own verdict is returned. */
    method Execute(arguments: seq<string>, totalMemory: nat, run: (string, Option<string>) -> RunOutcome)
      returns (success: bool)
      ensures success <==> run(Command(HeapSize(totalMemory)), configFile) == Exited(true)
    {
      var outcome := ExecuteWithTimeout(arguments, totalMemory, run);
      match outcome
      case TimedOut =>
        success := false;
      case Exited(ok) =>
        success := ok;
    }

    /** Writes the configuration for a mapping request and runs the engine on it; an unsupported
        serialization or database type raises before anything is written. */
    method ExecuteMapping(mappingFile: string, outputFile: string, serialization: string, rdb: RdbArgs,
                          totalMemory: nat, run: (string, Option<string>) -> RunOutcome)
      returns (r: Result<bool, MappingError>)
      requires EngineSerialization(serialization).Some? ==>
        '%' !in BaseName(mappingFile) && '%' !in BaseName(outputFile)
      requires EngineSerialization(serialization).Some? && Complete(rdb) ==> '%' !in rdb.name.value
      requires EngineSerialization(serialization).Some? && Complete(rdb)
               && ConnectionFor(rdb.rdbType.value, rdb.host.value, rdb.port.value, rdb.name.value).Some? ==>
        && '%' !in rdb.username.value && '%' !in rdb.password.value
        && '%' !in rdb.host.value && '%' !in rdb.port.value
      modifies this
      ensures ConfigTable(mappingFile, outputFile, serialization, rdb).Failure? ==>
        && r == Failure(ConfigTable(mappingFile, outputFile, serialization, rdb).error)
        && configFile == old(configFile)
      ensures ConfigTable(mappingFile, outputFile, serialization, rdb).Success? ==>
        && r == Success(run(Command(HeapSize(totalMemory)), configFile) == Exited(true))
        && configFile == Some(StripHeaderAsWritten(WriteSection(Section, ConfigTable(mappingFile, outputFile, serialization, rdb).value)))
      ensures (ConfigTable(mappingFile, outputFile, serialization, rdb).Success?
               && NoRootSuffix(ConfigTable(mappingFile, outputFile, serialization, rdb).value)) ==>
        configFile == Some(PropertiesText(ConfigTable(mappingFile, outputFile, serialization, rdb).value))
    {
      var token: string;
      if serialization == "nquads" {
        token := "N-QUADS";
      } else if serialization == "ntriples" {
        token := "N-TRIPLE";
      } else {
        return Failure(UnsupportedSerialization(serialization));
      }

      var mappingPath := Join("shared", BaseName(mappingFile));
      var outputPath := Join("shared", BaseName(outputFile));
      var root: Table := [
        ("mappingdocument.file.path", mappingPath),
        ("output.file.path", outputPath),
        ("output.rdflanguage", token)];
      assert root == BaseOptions(mappingFile, outputFile, token);

      if Complete(rdb) {
        var name, host, port := rdb.name.value, rdb.host.value, rdb.port.value;
        var driver, kind, dsn;
        if rdb.rdbType.value == "MySQL" {
          driver, kind := "com.mysql.jdbc.Driver", "mysql";
          dsn := Dsn("mysql", host, port, name) + MySqlOptions;
        } else if rdb.rdbType.value == "PostgreSQL" {
          driver, kind := "org.postgresql.Driver", "postgresql";
          dsn := Dsn("postgresql", host, port, name);
        } else {
          return Failure(UnknownRdbType(rdb.rdbType.value));
        }
        // the assignments to database.name[0] … no_of_database, in the order they are made
        var database := [
          ("database.name[0]", name),
          ("database.driver[0]", driver),
          ("database.type[0]", kind),
          ("database.url[0]", dsn),
          ("database.user[0]", rdb.username.value),
          ("database.pwd[0]", rdb.password.value),
          ("no_of_database", "1")];
        assert ConnectionFor(rdb.rdbType.value, host, port, name) == Some(Connection(driver, kind, dsn));
        assert database == DatabaseOptions(rdb, Connection(driver, kind, dsn));
        SetDatabaseOptions(mappingFile, outputFile, token, rdb, Connection(driver, kind, dsn));
        root := SetAll(root, database);
      }

      assert ConfigTable(mappingFile, outputFile, serialization, rdb) == Success(root);
      // config.write into config.properties, opened with 'w'
      configFile := Some(WriteSection(Section, root));
      // read it back, and write it again with every "[root]\n" replaced by nothing
      var data := configFile.value;
      configFile := Some(StripHeaderAsWritten(data));
      if NoRootSuffix(root) {
        AsWrittenStripAgrees(root);
        StripHeaderYieldsProperties(root);
      }

      var success := Execute([], totalMemory, run);
      r := Success(success);
    }
  }
}
