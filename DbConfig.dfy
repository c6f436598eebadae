/**
 * The backend's database registry (Backend/db/config.py): three MySQL
 * configurations read from the environment with built-in defaults, the
 * check run on them at import, and the mapping from a website source to the
 * key of the database that stores its leads. The environment enters as a
 * map; what each port variable parses to enters as a second map.
 */
module DbConfig {
  import opened Wrappers
  import opened Strings
  import opened PyValues

  /** `DEFAULT_DB_KEY`. */
  const DefaultDbKey := "guidance"

  /** The keys of `dbconfigs`, in declaration order. */
  const DbKeys: seq<string> := ["guidance", "itsupport", "software"]

  predicate IsDbKey(k: string) {
    k in DbKeys
  }

  /** One configuration: setting name to value. */
  type Config = map<string, PyValue>

  /** `os.getenv(name, default)`. */
  function Getenv(env: map<string, string>, name: string, default: string): string {
    if name in env then env[name] else default
  }

  /** `int(os.getenv(name, 3306))`, with the parse of a set variable given
      by `ports`. */
  function Port(ports: map<string, int>, name: string): int {
    if name in ports then ports[name] else 3306
  }

  /** The environment-variable prefix of each database key. */
  function Prefix(key: string): string {
    if key == "itsupport" then "dbit" else if key == "software" then "dbsw" else "db"
  }

  /** The database name used when the environment does not set one. */
  function DefaultName(key: string): string {
    if key == "itsupport" then "friendlyitsupport"
    else if key == "software" then "friendlysoftware"
    else "friendlyguidance"
  }

  /** `dbconfigs[key]['db']`. */
  function DbName(env: map<string, string>, key: string): string {
    Getenv(env, Prefix(key) + "_name", DefaultName(key))
  }

  /** The dictionary literal of one database. */
  function ConfigOf(env: map<string, string>, ports: map<string, int>, key: string): Config {
    var p := Prefix(key);
    map[
      "host" := PyStr(Getenv(env, p + "_host", "localhost")),
      "db" := PyStr(DbName(env, key)),
      "user" := PyStr(Getenv(env, p + "_user", "root")),
      "password" := PyStr(Getenv(env, p + "_psw", "")),
      "port" := PyInt(Port(ports, p + "_port")),
      "minsize" := PyInt(1),
      "maxsize" := PyInt(10)
    ]
  }

  /** `dbconfigs`, in declaration order. */
  function DbConfigs(env: map<string, string>, ports: map<string, int>): seq<(string, Config)> {
    [("guidance", ConfigOf(env, ports, "guidance")),
     ("itsupport", ConfigOf(env, ports, "itsupport")),
     ("software", ConfigOf(env, ports, "software"))]
  }

  /** The registry holds one configuration per database key, in order,
      each built for its own key. */
  lemma DbConfigsKeys(env: map<string, string>, ports: map<string, int>)
    ensures |DbConfigs(env, ports)| == |DbKeys|
    ensures forall i :: 0 <= i < |DbKeys| ==>
      DbConfigs(env, ports)[i] == (DbKeys[i], ConfigOf(env, ports, DbKeys[i]))
  {
    var cs := DbConfigs(env, ports);
    assert cs[0] == (DbKeys[0], ConfigOf(env, ports, DbKeys[0]));
    assert cs[1] == (DbKeys[1], ConfigOf(env, ports, DbKeys[1]));
    assert cs[2] == (DbKeys[2], ConfigOf(env, ports, DbKeys[2]));
  }

  const RequiredKeys: seq<string> := ["host", "db", "user", "password", "port"]

  /** `s.replace('_', '')`. */
  function RemoveUnderscores(s: string): (r: string)
    ensures forall c :: c in r <==> c in s && c != '_'
  {
    if s == [] then []
    else if s[0] == '_' then RemoveUnderscores(s[1..])
    else [s[0]] + RemoveUnderscores(s[1..])
  }

  /** `str.isalnum()`: non-empty and all letters or digits, the ASCII
      ones only; Python also accepts the other Unicode letters and digits. */
  predicate IsAlnum(s: string) {
    s != [] && forall k :: 0 <= k < |s| ==> IsAsciiAlnum(s[k])
  }

  /** The database-name test of `validate_db_configs`. */
  predicate ValidDbName(v: PyValue) {
    v.PyStr? && IsAlnum(RemoveUnderscores(v.s))
  }

  /** A valid database name is text made of letters, digits and
      underscores, with at least one letter or digit. */
  lemma ValidDbNameMeaning(s: string)
    ensures ValidDbName(PyStr(s)) <==>
      (forall c :: c in s ==> c == '_' || IsAsciiAlnum(c)) && (exists c :: c in s && c != '_')
  {
    var r := RemoveUnderscores(s);
    if forall c :: c in s ==> c == '_' || IsAsciiAlnum(c) {
      forall k | 0 <= k < |r| ensures IsAsciiAlnum(r[k]) {
        assert r[k] in r;
      }
      if exists c :: c in s && c != '_' {
        var c :| c in s && c != '_';
        assert c in r;
      }
    }
    if ValidDbName(PyStr(s)) {
      assert r[0] in r;
      forall c | c in s ensures c == '_' || IsAsciiAlnum(c) {
        if c != '_' {
          assert c in r;
          var k :| 0 <= k < |r| && r[k] == c;
        }
      }
    }
  }

  /** Every required setting is present and the database name is valid. */
  predicate ConfigOk(c: Config) {
    (forall k :: k in RequiredKeys ==> k in c) && ValidDbName(c["db"])
  }

  /** The error one configuration raises, if any: a missing setting first,
      then a malformed database name. */
  function ConfigError(name: string, c: Config): (r: Option<string>)
    ensures r.None? <==> ConfigOk(c)
  {
    if exists k :: k in RequiredKeys && k !in c then
      Some("Invalid database configuration for '" + name + "'")
    else if !ValidDbName(c["db"]) then
      Some("Invalid database name format in '" + name + "'")
    else None
  }

  /** `validate_db_configs`: the `ValueError` message of the first failing
      configuration, or `None` when it returns normally. */
  function ValidateDbConfigs(cs: seq<(string, Config)>): Option<string> {
    if cs == [] then None
    else if ConfigError(cs[0].0, cs[0].1).Some? then ConfigError(cs[0].0, cs[0].1)
    else ValidateDbConfigs(cs[1..])
  }

  /** Validation passes exactly when every configuration is sound, and a
      failure reports the first configuration that is not. */
  lemma {:induction false} ValidateDbConfigsMeaning(cs: seq<(string, Config)>)
    ensures ValidateDbConfigs(cs).None? <==> forall i :: 0 <= i < |cs| ==> ConfigOk(cs[i].1)
    ensures ValidateDbConfigs(cs).Some? ==> exists i ::
      && 0 <= i < |cs|
      && (forall j :: 0 <= j < i ==> ConfigOk(cs[j].1))
      && ValidateDbConfigs(cs) == ConfigError(cs[i].0, cs[i].1)
  {
    if cs != [] && ConfigOk(cs[0].1) {
      ValidateDbConfigsMeaning(cs[1..]);
      if ValidateDbConfigs(cs).Some? {
        var i :| && 0 <= i < |cs[1..]|
                 && (forall j :: 0 <= j < i ==> ConfigOk(cs[1..][j].1))
                 && ValidateDbConfigs(cs[1..]) == ConfigError(cs[1..][i].0, cs[1..][i].1);
        assert forall j :: 0 <= j < i + 1 ==> ConfigOk(cs[j].1) by {
          forall j | 0 <= j < i + 1 ensures ConfigOk(cs[j].1) {
            if j > 0 {
              assert cs[j] == cs[1..][j - 1];
            }
          }
        }
        assert ValidateDbConfigs(cs) == ConfigError(cs[i + 1].0, cs[i + 1].1);
      } else {
        forall i | 0 <= i < |cs| ensures ConfigOk(cs[i].1) {
          if i > 0 {
            assert cs[i] == cs[1..][i - 1];
          }
        }
      }
    }
  }

  /** The configurations built from any environment carry every required
      setting, so validation fails only on a database name. */
  lemma ConfigsHaveRequiredKeys(env: map<string, string>, ports: map<string, int>, key: string)
    ensures forall k :: k in RequiredKeys ==> k in ConfigOf(env, ports, key)
    ensures ConfigOk(ConfigOf(env, ports, key)) <==> ValidDbName(PyStr(DbName(env, key)))
  {
  }

  /** Import succeeds exactly when the three configured database names are
      valid. */
  lemma ImportValidationIff(env: map<string, string>, ports: map<string, int>)
    ensures ValidateDbConfigs(DbConfigs(env, ports)).None? <==>
      && ValidDbName(PyStr(DbName(env, "guidance")))
      && ValidDbName(PyStr(DbName(env, "itsupport")))
      && ValidDbName(PyStr(DbName(env, "software")))
  {
    var cs := DbConfigs(env, ports);
    ValidateDbConfigsMeaning(cs);
    ConfigsHaveRequiredKeys(env, ports, "guidance");
    ConfigsHaveRequiredKeys(env, ports, "itsupport");
    ConfigsHaveRequiredKeys(env, ports, "software");
    assert cs[0].1 == ConfigOf(env, ports, "guidance");
    assert cs[1].1 == ConfigOf(env, ports, "itsupport");
    assert cs[2].1 == ConfigOf(env, ports, "software");
  }

  /** Each built-in database name is valid. */
  lemma DefaultNameValid(key: string)
    ensures ValidDbName(PyStr(DefaultName(key)))
  {
    AlnumNameValid(DefaultName(key));
  }

  /** A name of letters and digits only is valid. */
  lemma AlnumNameValid(s: string)
    requires IsAlnum(s)
    ensures ValidDbName(PyStr(s))
  {
    assert '_' !in s by {
      forall k | 0 <= k < |s| ensures s[k] != '_' {
        assert IsAsciiAlnum(s[k]);
      }
    }
    NoUnderscoreUnchanged(s);
  }

  /** With no database variables set, validation passes. */
  lemma DefaultNamesValid(ports: map<string, int>)
    ensures ValidateDbConfigs(DbConfigs(map[], ports)) == None
  {
    DefaultNameValid("guidance");
    DefaultNameValid("itsupport");
    DefaultNameValid("software");
    ImportValidationIff(map[], ports);
  }

  lemma {:induction false} NoUnderscoreUnchanged(s: string)
    requires '_' !in s
    ensures RemoveUnderscores(s) == s
  {
    if s != [] {
      assert '_' !in s[1..];
      NoUnderscoreUnchanged(s[1..]);
      assert s == [s[0]] + s[1..];
    }
  }

  /** `mappings`, in insertion order. */
  const Mappings: seq<(string, string)> :=
    [("itsupport", "itsupport"), ("guidance", "guidance"), ("software", "software"), ("default", "itsupport")]

  /** `source in mappings` / `mappings[source]`. */
  function Lookup(pairs: seq<(string, string)>, k: string): Option<string> {
    if pairs == [] then None
    else if pairs[0].0 == k then Some(pairs[0].1)
    else Lookup(pairs[1..], k)
  }

  /** The loop `for key, db_key in mappings.items(): if key in s: return
      db_key`. */
  function FirstContained(pairs: seq<(string, string)>, s: string): Option<string> {
    if pairs == [] then None
    else if Contains(s, pairs[0].0) then Some(pairs[0].1)
    else FirstContained(pairs[1..], s)
  }

  /** The search returns the value of the first pair whose key occurs in
      `s`, and nothing when no key occurs. */
  lemma {:induction false} FirstContainedMeaning(pairs: seq<(string, string)>, s: string)
    ensures FirstContained(pairs, s).None? <==> forall i :: 0 <= i < |pairs| ==> !Contains(s, pairs[i].0)
    ensures FirstContained(pairs, s).Some? ==> exists i ::
      && 0 <= i < |pairs| && Contains(s, pairs[i].0)
      && FirstContained(pairs, s).value == pairs[i].1
      && (forall j :: 0 <= j < i ==> !Contains(s, pairs[j].0))
  {
    if pairs != [] && !Contains(s, pairs[0].0) {
      var tail := pairs[1..];
      FirstContainedMeaning(tail, s);
      forall i | 0 < i < |pairs| ensures pairs[i] == tail[i - 1] {}
      if FirstContained(tail, s).Some? {
        var i :| && 0 <= i < |tail| && Contains(s, tail[i].0)
                 && FirstContained(tail, s).value == tail[i].1
                 && (forall j :: 0 <= j < i ==> !Contains(s, tail[j].0));
        assert forall j :: 0 <= j < i + 1 ==> !Contains(s, pairs[j].0);
        assert pairs[i + 1] == tail[i];
      }
    }
  }

  /** The exact lookup in `mappings`, written out. */
  lemma LookupMappings(k: string)
    ensures Lookup(Mappings, k) ==
      if k == "itsupport" then Some("itsupport")
      else if k == "guidance" then Some("guidance")
      else if k == "software" then Some("software")
      else if k == "default" then Some("itsupport")
      else None
  {
    var m := Mappings;
    var m1, m2, m3 := m[1..], m[2..], m[3..];
    assert m3 == [("default", "itsupport")] && m3[1..] == [];
    assert Lookup(m3, k) == if k == "default" then Some("itsupport") else None;
    assert m2[0] == ("software", "software") && m2[1..] == m3;
    assert Lookup(m2, k) == if k == "software" then Some("software") else Lookup(m3, k);
    assert m1[0] == ("guidance", "guidance") && m1[1..] == m2;
    assert Lookup(m1, k) == if k == "guidance" then Some("guidance") else Lookup(m2, k);
    assert m[0] == ("itsupport", "itsupport") && m[1..] == m1;
    assert Lookup(m, k) == if k == "itsupport" then Some("itsupport") else Lookup(m1, k);
  }

  /** The containment search over `mappings`, written out. */
  lemma SearchMappings(s: string)
    ensures FirstContained(Mappings, s) ==
      if Contains(s, "itsupport") then Some("itsupport")
      else if Contains(s, "guidance") then Some("guidance")
      else if Contains(s, "software") then Some("software")
      else if Contains(s, "default") then Some("itsupport")
      else None
  {
    var m := Mappings;
    var m1, m2, m3 := m[1..], m[2..], m[3..];
    assert m3 == [("default", "itsupport")] && m3[1..] == [];
    assert FirstContained(m3, s) == if Contains(s, "default") then Some("itsupport") else None;
    assert m2[0] == ("software", "software") && m2[1..] == m3;
    assert FirstContained(m2, s) == if Contains(s, "software") then Some("software") else FirstContained(m3, s);
    assert m1[0] == ("guidance", "guidance") && m1[1..] == m2;
    assert FirstContained(m1, s) == if Contains(s, "guidance") then Some("guidance") else FirstContained(m2, s);
    assert m[0] == ("itsupport", "itsupport") && m[1..] == m1;
    assert FirstContained(m, s) == if Contains(s, "itsupport") then Some("itsupport") else FirstContained(m1, s);
  }

  /** The containment search over the lower-cased, stripped source, with
      the default key when no mapping key occurs in it. */
  function SearchSource(source: string): string {
    match FirstContained(Mappings, PyTrim(Lower(source)))
    case Some(v) => v
    case None => DefaultDbKey
  }

  /** `get_database_by_website_source`; `None` is Python's `None`. */
  function DatabaseFor(source: Option<string>): string {
    if source.None? || source.value == "" then DefaultDbKey
    else
      match Lookup(Mappings, source.value)
      case Some(v) => v
      case None => SearchSource(source.value)
  }

  /** An absent or empty source goes to `guidance`. */
  lemma EmptySourceIsGuidance()
    ensures DatabaseFor(None) == "guidance" && DatabaseFor(Some("")) == "guidance"
  {
  }

  /** Every source maps to a configured database. */
  lemma DatabaseForIsConfigured(source: Option<string>)
    ensures IsDbKey(DatabaseFor(source))
  {
    if source.Some? && source.value != "" {
      LookupMappings(source.value);
      SearchMappings(PyTrim(Lower(source.value)));
    }
  }

  /** The exact keys: each brand key to itself, `default` to `itsupport`. */
  lemma ExactKeys()
    ensures DatabaseFor(Some("itsupport")) == "itsupport"
    ensures DatabaseFor(Some("guidance")) == "guidance"
    ensures DatabaseFor(Some("software")) == "software"
    ensures DatabaseFor(Some("default")) == "itsupport"
  {
    LookupMappings("itsupport");
    LookupMappings("guidance");
    LookupMappings("software");
    LookupMappings("default");
  }

  /** A literal key without upper-case letters or surrounding spaces is
      its own lower-cased, stripped form. */
  lemma PlainKey(k: string)
    requires NoUpper(k) && k != [] && !IsPySpace(k[0]) && !IsPySpace(k[|k| - 1])
    ensures PyTrim(Lower(k)) == k
  {
    NoUpperIsLower(k);
    StripUnchanged(k, IsPySpace);
  }

  lemma SearchItSupport()
    ensures SearchSource("itsupport") == "itsupport"
  {
    PlainKey("itsupport");
    ContainsSelf("itsupport");
    SearchMappings("itsupport");
  }

  lemma SearchGuidance()
    ensures SearchSource("guidance") == "guidance"
  {
    PlainKey("guidance");
    LongerNotContained("guidance", "itsupport");
    ContainsSelf("guidance");
    SearchMappings("guidance");
  }

  lemma SearchSoftware()
    ensures SearchSource("software") == "software"
  {
    PlainKey("software");
    LongerNotContained("software", "itsupport");
    NoOccurrence("software", "guidance");
    ContainsSelf("software");
    SearchMappings("software");
  }

  lemma SearchDefault()
    ensures SearchSource("default") == "itsupport"
  {
    PlainKey("default");
    LongerNotContained("default", "itsupport");
    LongerNotContained("default", "guidance");
    LongerNotContained("default", "software");
    ContainsSelf("default");
    SearchMappings("default");
  }

  /** The exact-key test never changes the answer: the containment search
      alone maps each exact key to the same database. */
  lemma ExactLookupAgreesWithSearch(source: string)
    requires source != ""
    ensures DatabaseFor(Some(source)) == SearchSource(source)
  {
    LookupMappings(source);
    if source == "itsupport" {
      SearchItSupport();
    } else if source == "guidance" {
      SearchGuidance();
    } else if source == "software" {
      SearchSoftware();
    } else if source == "default" {
      SearchDefault();
    }
  }

  /** For any non-empty source: the value of the first mapping key (in the
      order itsupport, guidance, software, default) that occurs in the
      lower-cased, stripped source, or `guidance` when none occurs. */
  lemma DatabaseForMeaning(source: string)
    requires source != ""
    ensures var s := PyTrim(Lower(source)); var r := DatabaseFor(Some(source));
      && ((forall i :: 0 <= i < |Mappings| ==> !Contains(s, Mappings[i].0)) ==> r == DefaultDbKey)
      && (forall i :: (0 <= i < |Mappings| && Contains(s, Mappings[i].0)
            && (forall j :: 0 <= j < i ==> !Contains(s, Mappings[j].0))) ==> r == Mappings[i].1)
  {
    ExactLookupAgreesWithSearch(source);
    var s := PyTrim(Lower(source));
    FirstContainedMeaning(Mappings, s);
  }

  /** The exact test is case-sensitive, but a differently cased key still
      reaches its database through the search. */
  lemma MixedCaseKey()
    ensures Lookup(Mappings, "ItSupport") == None
    ensures DatabaseFor(Some("ItSupport")) == "itsupport"
  {
    LookupMappings("ItSupport");
    NormalizeItSupport();
    ContainsSelf("itsupport");
    SearchMappings("itsupport");
  }

  lemma NormalizeItSupport()
    ensures PyTrim(Lower("ItSupport")) == "itsupport"
  {
    LowerItSupport();
    StripUnchanged("itsupport", IsPySpace);
  }

  lemma LowerItSupport()
    ensures Lower("ItSupport") == "itsupport"
  {
    var l := Lower("ItSupport");
    assert l[0] == 'i' && l[2] == 's';
    assert l[..2] == "it" && l[2..] == "support";
    assert l == l[..2] + l[2..];
  }
}
