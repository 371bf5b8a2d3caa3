/** The two text files of src/wayland_vnc/runtime.py that carry a password: the credentials file
    and the WayVNC configuration, with the writers and the readers of both. */
module ConfigText {
  import opened Results
  import opened PyText
  import opened Numerals

  // ----- `key=value` lines

  function EqualsAt(line: string): (n: nat)
    ensures n <= |line|
    ensures n < |line| ==> line[n] == '='
    ensures forall i | 0 <= i < n :: line[i] != '='
  {
    if line == "" || line[0] == '=' then 0 else 1 + EqualsAt(line[1..])
  }

  /** The values of lines that have an equals sign; a later line wins over an earlier one. */
  function Fields(lines: seq<string>): map<string, string> {
    if lines == [] then map[]
    else
      var n := |lines| - 1;
      WithLine(Fields(lines[..n]), lines[n])
  }

  function WithLine(fields: map<string, string>, line: string): map<string, string> {
    var at := EqualsAt(line);
    if at == |line| then fields else fields[line[..at] := line[at + 1..]]
  }

  predicate Keyword(key: string) {
    NoBreak(key) && forall i | 0 <= i < |key| :: key[i] != '='
  }

  datatype Setting = Setting(key: string, value: string)

  function Rendered(settings: seq<Setting>): (lines: seq<string>)
    ensures |lines| == |settings|
  {
    seq(|settings|, i requires 0 <= i < |settings| => settings[i].key + "=" + settings[i].value)
  }

  function Assigned(settings: seq<Setting>): map<string, string> {
    if settings == [] then map[]
    else
      var n := |settings| - 1;
      Assigned(settings[..n])[settings[n].key := settings[n].value]
  }

  lemma {:induction false} FieldsOfRendered(settings: seq<Setting>)
    requires forall i | 0 <= i < |settings| :: Keyword(settings[i].key)
    ensures Fields(Rendered(settings)) == Assigned(settings)
  {
    if settings == [] {
    } else {
      var n := |settings| - 1;
      var line := settings[n].key + "=" + settings[n].value;
      FieldsOfRendered(settings[..n]);
      assert Rendered(settings)[..n] == Rendered(settings[..n]);
      EqualsFirst(settings[n].key, settings[n].value);
    }
  }

  lemma EqualsFirst(key: string, value: string)
    requires Keyword(key)
    ensures EqualsAt(key + "=" + value) == |key|
    ensures (key + "=" + value)[..|key|] == key && (key + "=" + value)[|key| + 1..] == value
  {
    var line := key + "=" + value;
    assert line[|key|] == '=';
    assert EqualsAt(line) <= |key|;
    assert forall i | 0 <= i < |key| :: line[i] == key[i];
  }

  predicate SingleLine(settings: seq<Setting>) {
    forall i | 0 <= i < |settings| :: Keyword(settings[i].key) && NoBreak(settings[i].value)
  }

  /** The last setting of a key is the one that counts. */
  lemma {:induction false} AssignedLast(settings: seq<Setting>, i: nat)
    requires i < |settings| && forall j | i < j < |settings| :: settings[j].key != settings[i].key
    ensures settings[i].key in Assigned(settings) && Assigned(settings)[settings[i].key] == settings[i].value
  {
    if i < |settings| - 1 {
      AssignedLast(settings[..|settings| - 1], i);
    }
  }

  lemma {:induction false} AssignedAbsent(settings: seq<Setting>, key: string)
    requires forall j | 0 <= j < |settings| :: settings[j].key != key
    ensures key !in Assigned(settings)
  {
    if settings == [] {
    } else {
      AssignedAbsent(settings[..|settings| - 1], key);
    }
  }

  function FileText(settings: seq<Setting>): string {
    Unlines(Rendered(settings))
  }

  /** What a reader finds in a file written from single-line settings: exactly those settings. */
  lemma FileReads(settings: seq<Setting>)
    requires SingleLine(settings)
    ensures Fields(SplitLines(FileText(settings))) == Assigned(settings)
  {
    forall i | 0 <= i < |settings| ensures NoBreak(Rendered(settings)[i]) {
      assert Rendered(settings)[i] == settings[i].key + "=" + settings[i].value;
    }
    SplitUnlines(Rendered(settings));
    FieldsOfRendered(settings);
  }

  // ----- credentials

  datatype Credentials = Credentials(username: string, password: string)

  predicate PrintableAscii(s: string) {
    forall i | 0 <= i < |s| :: ' ' <= s[i] <= '~'
  }

  /** What the `Credentials` constructor accepts. */
  predicate Acceptable(c: Credentials) {
    && c.username != "" && PrintableAscii(c.username)
    && 6 <= |c.password| <= 64 && PrintableAscii(c.password) && Strip(c.password) == c.password
  }

  /** A user name of printable ASCII, and a password of 6 to 64 such characters with no space at either end. */
  lemma AcceptableExactly(c: Credentials)
    ensures Acceptable(c) <==>
      && c.username != "" && (forall i | 0 <= i < |c.username| :: 32 <= c.username[i] as int <= 126)
      && 6 <= |c.password| <= 64 && (forall i | 0 <= i < |c.password| :: 32 <= c.password[i] as int <= 126)
      && c.password[0] != ' ' && c.password[|c.password| - 1] != ' '
  {
    StripTrims(c.password);
  }

  function CredentialSettings(c: Credentials): seq<Setting> {
    [Setting("username", c.username), Setting("password", c.password)]
  }

  function CredentialsText(c: Credentials): string {
    FileText(CredentialSettings(c))
  }

  function CredentialFields(text: string): Option<Credentials> {
    var fields := Fields(SplitLines(text));
    if "username" in fields && "password" in fields then Some(Credentials(fields["username"], fields["password"]))
    else None
  }

  /** `read_credentials`; no file reads as no credential. */
  function ReadCredentials(file: Option<string>): Result<Option<Credentials>> {
    match file
    case None => Ok(None)
    case Some(text) =>
      match CredentialFields(text)
      case None => Err("ValueError")
      case Some(c) => if Acceptable(c) then Ok(Some(c)) else Err("ValueError")
  }

  lemma KeywordsPlain()
    ensures Keyword("username") && Keyword("password") && Keyword("address") && Keyword("port")
    ensures Keyword("enable_auth") && Keyword("relax_encryption") && Keyword("rsa_private_key_file")
  {
  }

  lemma AcceptableNoBreak(c: Credentials)
    requires Acceptable(c)
    ensures NoBreak(c.username) && NoBreak(c.password)
    ensures SingleLine(CredentialSettings(c))
  {
    KeywordsPlain();
  }

  lemma KeysDiffer()
    ensures "username" != "password" && "address" != "port" && "address" != "username" && "address" != "password"
    ensures "port" != "username" && "port" != "password"
    ensures "enable_auth" != "address" && "relax_encryption" != "address" && "rsa_private_key_file" != "address"
    ensures "enable_auth" != "port" && "relax_encryption" != "port" && "rsa_private_key_file" != "port"
    ensures "enable_auth" != "username" && "relax_encryption" != "username" && "rsa_private_key_file" != "username"
    ensures "enable_auth" != "password" && "relax_encryption" != "password" && "rsa_private_key_file" != "password"
  {
    assert |"username"| == |"password"| && "username"[0] != "password"[0];
    assert |"address"| == 7 && |"port"| == 4 && |"enable_auth"| == 11;
  }

  /** Reading the credentials file gives the credential that was written, whatever characters its
      username and password are made of. */
  lemma CredentialsRoundTrip(c: Credentials)
    requires Acceptable(c)
    ensures ReadCredentials(Some(CredentialsText(c))) == Ok(Some(c))
  {
    AcceptableNoBreak(c);
    FileReads(CredentialSettings(c));
    KeysDiffer();
    AssignedLast(CredentialSettings(c), 0);
    AssignedLast(CredentialSettings(c), 1);
  }

  // ----- the WayVNC configuration

  predicate UsablePort(port: int) {
    1024 < port <= 65535
  }

  function FixedSettings(address: string, port: nat, keyPath: string): seq<Setting> {
    [Setting("address", address), Setting("port", Show(port)), Setting("enable_auth", "true"),
     Setting("relax_encryption", "false"), Setting("rsa_private_key_file", keyPath)]
  }

  function ConfigSettings(address: string, port: nat, keyPath: string, c: Option<Credentials>): seq<Setting> {
    FixedSettings(address, port, keyPath) + if c.None? then [] else CredentialSettings(c.value)
  }

  function ConfigFile(address: string, port: nat, keyPath: string, c: Option<Credentials>): string {
    FileText(ConfigSettings(address, port, keyPath, c))
  }

  /** `read_config`; a file without a usable address or port reads as no configuration. */
  function ReadConfig(file: Option<string>): Option<(string, int)> {
    match file
    case None => None
    case Some(text) =>
      var fields := Fields(SplitLines(text));
      var address := Strip(if "address" in fields then fields["address"] else "");
      match ParseInt(Strip(if "port" in fields then fields["port"] else ""))
      case None => None
      case Some(port) => if address == "" then None else Some((address, port))
  }

  /** The fields of a written configuration: the bind, and the stored credential or none. */
  lemma ConfigReads(address: string, port: nat, keyPath: string, c: Option<Credentials>)
    requires NoBreak(address) && PlainPath(keyPath) && (c.Some? ==> Acceptable(c.value))
    ensures var text := ConfigFile(address, port, keyPath, c);
      && ReadConfig(Some(text)) == (if Strip(address) == "" then None else Some((Strip(address), port as int)))
      && CredentialFields(text) == c
  {
    ConfigReadsAny(address, port, keyPath, c);
    EffectiveSingle(address);
  }

  // ----- an address of any number of lines

  /** What an address contributes to the configuration. */
  function AddressText(address: string): string {
    "address=" + address + "\n"
  }

  /** The address that is read back. */
  function Effective(address: string): string {
    var fields := Fields(SplitLines(AddressText(address)));
    Strip(if "address" in fields then fields["address"] else "")
  }

  lemma {:induction false} FieldsAppend(lines: seq<string>, more: seq<string>)
    ensures Fields(lines + more) == Fields(lines) + Fields(more)
  {
    if more == [] {
      assert lines + more == lines;
    } else {
      var n := |more| - 1;
      FieldsAppend(lines, more[..n]);
      var both := lines + more;
      assert both[..|both| - 1] == lines + more[..n] && both[|both| - 1] == more[n];
      WithLineLater(Fields(lines), Fields(more[..n]), more[n]);
    }
  }

  lemma WithLineLater(fields: map<string, string>, more: map<string, string>, line: string)
    ensures WithLine(fields + more, line) == fields + WithLine(more, line)
  {
  }

  /** What the path of the key contributes. */
  function KeyText(keyPath: string): string {
    "rsa_private_key_file=" + keyPath + "\n"
  }

  function KeyFields(keyPath: string): map<string, string> {
    Fields(SplitLines(KeyText(keyPath)))
  }

  /** A path none of whose lines looks like a setting that is read back. */
  predicate PlainPath(keyPath: string) {
    var fields := KeyFields(keyPath);
    "address" !in fields && "port" !in fields && "username" !in fields && "password" !in fields
  }

  function Switches(port: nat): seq<Setting> {
    [Setting("port", Show(port)), Setting("enable_auth", "true"), Setting("relax_encryption", "false")]
  }

  function StoredSettings(c: Option<Credentials>): seq<Setting> {
    if c.None? then [] else CredentialSettings(c.value)
  }

  lemma RenderedAppend(settings: seq<Setting>, more: seq<Setting>)
    ensures FileText(settings + more) == FileText(settings) + FileText(more)
  {
    assert Rendered(settings + more) == Rendered(settings) + Rendered(more);
    UnlinesAppend(Rendered(settings), Rendered(more));
  }

  lemma OneLine(key: string, value: string)
    ensures FileText([Setting(key, value)]) == key + "=" + value + "\n"
  {
    assert Rendered([Setting(key, value)]) == [key + "=" + value];
    assert Unlines([key + "=" + value]) == key + "=" + value + "\n" + Unlines([]);
  }

  lemma ConfigParts(address: string, port: nat, keyPath: string, c: Option<Credentials>)
    ensures ConfigFile(address, port, keyPath, c) ==
      AddressText(address) + (FileText(Switches(port)) + (KeyText(keyPath) + FileText(StoredSettings(c))))
  {
    var first, key := [Setting("address", address)], [Setting("rsa_private_key_file", keyPath)];
    assert ConfigSettings(address, port, keyPath, c) == first + (Switches(port) + (key + StoredSettings(c)));
    RenderedAppend(first, Switches(port) + (key + StoredSettings(c)));
    RenderedAppend(Switches(port), key + StoredSettings(c));
    RenderedAppend(key, StoredSettings(c));
    OneLine("address", address);
    OneLine("rsa_private_key_file", keyPath);
    assert "address" + "=" == "address=" && "rsa_private_key_file" + "=" == "rsa_private_key_file=";
  }

  lemma FieldsSplit(text: string, rest: string)
    requires text != "" && text[|text| - 1] == '\n'
    ensures Fields(SplitLines(text + rest)) == Fields(SplitLines(text)) + Fields(SplitLines(rest))
  {
    SplitAppend(text, rest);
    FieldsAppend(SplitLines(text), SplitLines(rest));
  }

  lemma PlainSettings(port: nat, c: Option<Credentials>)
    requires c.Some? ==> Acceptable(c.value)
    ensures Fields(SplitLines(FileText(Switches(port)))) == Assigned(Switches(port))
    ensures Fields(SplitLines(FileText(StoredSettings(c)))) == Assigned(StoredSettings(c))
    ensures var text := FileText(Switches(port)); text != "" && text[|text| - 1] == '\n'
  {
    KeywordsPlain();
    ShowTrimmed(port);
    assert NoBreak("true") && NoBreak("false");
    FileReads(Switches(port));
    if c.Some? {
      AcceptableNoBreak(c.value);
    }
    FileReads(StoredSettings(c));
    UnlinesEnds(Rendered(Switches(port)));
  }

  /** The settings of a configuration with any address and any path: each part overrides those before it. */
  lemma ConfigFields(address: string, port: nat, keyPath: string, c: Option<Credentials>)
    requires c.Some? ==> Acceptable(c.value)
    ensures Fields(SplitLines(ConfigFile(address, port, keyPath, c))) ==
      Fields(SplitLines(AddressText(address))) +
      (Assigned(Switches(port)) + (KeyFields(keyPath) + Assigned(StoredSettings(c))))
  {
    var stored := FileText(StoredSettings(c));
    ConfigParts(address, port, keyPath, c);
    PlainSettings(port, c);
    FieldsSplit(AddressText(address), FileText(Switches(port)) + (KeyText(keyPath) + stored));
    FieldsSplit(FileText(Switches(port)), KeyText(keyPath) + stored);
    FieldsSplit(KeyText(keyPath), stored);
  }

  lemma SwitchFields(port: nat)
    ensures var m := Assigned(Switches(port));
      && "port" in m && m["port"] == Show(port)
      && "address" !in m && "username" !in m && "password" !in m
  {
    KeysDiffer();
    AssignedLast(Switches(port), 0);
    AssignedAbsent(Switches(port), "address");
    AssignedAbsent(Switches(port), "username");
    AssignedAbsent(Switches(port), "password");
  }

  lemma StoredFields(c: Option<Credentials>)
    ensures var m := Assigned(StoredSettings(c));
      && "address" !in m && "port" !in m
      && (c.None? ==> "username" !in m && "password" !in m)
      && (c.Some? ==> "username" in m && m["username"] == c.value.username)
      && (c.Some? ==> "password" in m && m["password"] == c.value.password)
  {
    KeysDiffer();
    AssignedAbsent(StoredSettings(c), "address");
    AssignedAbsent(StoredSettings(c), "port");
    if c.Some? {
      AssignedLast(StoredSettings(c), 0);
      AssignedLast(StoredSettings(c), 1);
    }
  }

  /** What the address and the path say, the path last. */
  function Said(address: string, keyPath: string): map<string, string> {
    Fields(SplitLines(AddressText(address))) + KeyFields(keyPath)
  }

  lemma MergedFields(fields: map<string, string>, address: map<string, string>, switches: map<string, string>,
                     path: map<string, string>, stored: map<string, string>)
    requires fields == address + (switches + (path + stored))
    requires "address" !in stored && "port" !in stored && "address" !in switches && "port" in switches
    requires "username" !in switches && "password" !in switches
    ensures Lookup(fields, "address") == Lookup(address + path, "address")
    ensures Lookup(fields, "port") == if "port" in path then Some(path["port"]) else Some(switches["port"])
    ensures Lookup(fields, "username") == Lookup(address + path + stored, "username")
    ensures Lookup(fields, "password") == Lookup(address + path + stored, "password")
  {
  }

  function Lookup(fields: map<string, string>, key: string): Option<string> {
    if key in fields then Some(fields[key]) else None
  }

  lemma ConfigLookups(address: string, port: nat, keyPath: string, c: Option<Credentials>)
    requires c.Some? ==> Acceptable(c.value)
    ensures var fields, said := Fields(SplitLines(ConfigFile(address, port, keyPath, c))), Said(address, keyPath);
      && Lookup(fields, "address") == Lookup(said, "address")
      && Lookup(fields, "port") == Some(if "port" in KeyFields(keyPath) then KeyFields(keyPath)["port"] else Show(port))
      && Lookup(fields, "username") == (if c.Some? then Some(c.value.username) else Lookup(said, "username"))
      && Lookup(fields, "password") == (if c.Some? then Some(c.value.password) else Lookup(said, "password"))
  {
    ConfigFields(address, port, keyPath, c);
    SwitchFields(port);
    StoredFields(c);
    var text := ConfigFile(address, port, keyPath, c);
    MergedFields(Fields(SplitLines(text)), Fields(SplitLines(AddressText(address))), Assigned(Switches(port)),
                 KeyFields(keyPath), Assigned(StoredSettings(c)));
  }

  /** What is read back of any configuration, whatever lines the address and the path to the key hold: the path's
      lines override the bind, and a stored credential overrides both. */
  lemma ConfigReadsPath(address: string, port: nat, keyPath: string, c: Option<Credentials>)
    requires c.Some? ==> Acceptable(c.value)
    ensures var text := ConfigFile(address, port, keyPath, c);
      && ReadConfig(Some(text)) == PathBind(address, port, keyPath)
      && CredentialFields(text) == if c.Some? then c else NamedIn(Said(address, keyPath))
  {
    ConfigLookups(address, port, keyPath, c);
    ShowTrimmed(port);
    ParseShow(port);
  }

  lemma OtherKeysDiffer()
    ensures "enable_auth" != "port" && "enable_auth" != "relax_encryption" && "enable_auth" != "rsa_private_key_file"
    ensures "relax_encryption" != "port" && "relax_encryption" != "rsa_private_key_file"
  {
    assert |"enable_auth"| == 11 && |"relax_encryption"| == 16 && |"rsa_private_key_file"| == 20 && |"port"| == 4;
  }

  lemma SwitchesOn(port: nat, c: Option<Credentials>)
    ensures var m := Assigned(Switches(port));
      && Lookup(m, "enable_auth") == Some("true") && Lookup(m, "relax_encryption") == Some("false")
      && "rsa_private_key_file" !in m
    ensures var m := Assigned(StoredSettings(c));
      "enable_auth" !in m && "relax_encryption" !in m && "rsa_private_key_file" !in m
  {
    KeysDiffer();
    OtherKeysDiffer();
    AssignedLast(Switches(port), 1);
    AssignedLast(Switches(port), 2);
    AssignedAbsent(Switches(port), "rsa_private_key_file");
    AssignedAbsent(StoredSettings(c), "enable_auth");
    AssignedAbsent(StoredSettings(c), "relax_encryption");
    AssignedAbsent(StoredSettings(c), "rsa_private_key_file");
  }

  lemma MergedSwitch(address: map<string, string>, switches: map<string, string>, path: map<string, string>,
                     stored: map<string, string>, key: string)
    requires key !in stored && (key in switches || key in path)
    ensures Lookup(address + (switches + (path + stored)), key) == Lookup(switches + path, key)
  {
  }

  lemma KeyFieldsSingle(keyPath: string)
    requires NoBreak(keyPath)
    ensures KeyFields(keyPath) == map["rsa_private_key_file" := keyPath]
  {
    var line := "rsa_private_key_file" + "=" + keyPath;
    assert "rsa_private_key_file" + "=" == "rsa_private_key_file=";
    assert line + "\n" + "" == KeyText(keyPath);
    FirstLine(line, "");
    KeywordsPlain();
    OneField("rsa_private_key_file", keyPath);
  }

  /** Every written configuration turns authentication on, keeps encryption strict and names the key, whatever
      lines the address holds. */
  lemma AuthenticationIsOn(address: string, port: nat, keyPath: string, c: Option<Credentials>)
    requires NoBreak(keyPath) && (c.Some? ==> Acceptable(c.value))
    ensures var fields := Fields(SplitLines(ConfigFile(address, port, keyPath, c)));
      && Lookup(fields, "enable_auth") == Some("true")
      && Lookup(fields, "relax_encryption") == Some("false")
      && Lookup(fields, "rsa_private_key_file") == Some(keyPath)
  {
    var said, switches := Fields(SplitLines(AddressText(address))), Assigned(Switches(port));
    var path, stored := KeyFields(keyPath), Assigned(StoredSettings(c));
    ConfigFields(address, port, keyPath, c);
    SwitchesOn(port, c);
    KeyFieldsSingle(keyPath);
    KeysDiffer();
    OtherKeysDiffer();
    MergedSwitch(said, switches, path, stored, "enable_auth");
    MergedSwitch(said, switches, path, stored, "relax_encryption");
    MergedSwitch(said, switches, path, stored, "rsa_private_key_file");
  }

  function NamedIn(fields: map<string, string>): Option<Credentials> {
    if "username" in fields && "password" in fields then Some(Credentials(fields["username"], fields["password"]))
    else None
  }

  function PathBind(address: string, port: nat, keyPath: string): Option<(string, int)> {
    var fields, path := Said(address, keyPath), KeyFields(keyPath);
    var bound := Strip(if "address" in fields then fields["address"] else "");
    match if "port" in path then ParseInt(Strip(path["port"])) else Some(port as int)
    case None => None
    case Some(n) => if bound == "" then None else Some((bound, n))
  }

  /** The bind and the credential that are read back from a configuration with any address at all: the stored
      credential if there is one, and else what the lines of the address say. */
  lemma ConfigReadsAny(address: string, port: nat, keyPath: string, c: Option<Credentials>)
    requires PlainPath(keyPath) && (c.Some? ==> Acceptable(c.value))
    ensures var text := ConfigFile(address, port, keyPath, c);
      && ReadConfig(Some(text)) == (if Effective(address) == "" then None else Some((Effective(address), port as int)))
      && CredentialFields(text) == if c.Some? then c else CredentialFields(AddressText(address))
  {
    ConfigReadsPath(address, port, keyPath, c);
  }

  /** A path of one line is plain. */
  lemma SingleLinePath(keyPath: string)
    requires NoBreak(keyPath)
    ensures PlainPath(keyPath)
  {
    KeyFieldsSingle(keyPath);
    KeysDiffer();
  }

  /** A single-line address is read back stripped, and says nothing of a credential. */
  lemma EffectiveSingle(address: string)
    requires NoBreak(address)
    ensures Effective(address) == Strip(address) && CredentialFields(AddressText(address)).None?
  {
    var line := "address" + "=" + address;
    assert "address" + "=" == "address=";
    assert line + "\n" + "" == AddressText(address);
    FirstLine(line, "");
    OneField("address", address);
    KeysDiffer();
  }

  lemma OneField(key: string, value: string)
    requires Keyword(key)
    ensures Fields([key + "=" + value] + SplitLines("")) == map[key := value]
  {
    EqualsFirst(key, value);
    assert [key + "=" + value] + SplitLines("") == [key + "=" + value];
    assert [key + "=" + value][..0] == [];
  }

  /** An address whose second and third line name a credential. */
  function Naming(first: string, c: Credentials): string {
    first + "\n" + ("username" + "=" + c.username) + "\n" + ("password" + "=" + c.password)
  }

  lemma NamingNames(first: string, c: Credentials)
    requires NoBreak(first) && NoBreak(c.username) && NoBreak(c.password)
    ensures CredentialFields(AddressText(Naming(first, c))) == Some(c)
  {
    var settings := [Setting("address", first), Setting("username", c.username), Setting("password", c.password)];
    KeywordsPlain();
    KeysDiffer();
    FileReads(settings);
    NamingText(first, c);
    AssignedLast(settings, 1);
    AssignedLast(settings, 2);
  }

  lemma NamingText(first: string, c: Credentials)
    ensures FileText([Setting("address", first), Setting("username", c.username), Setting("password", c.password)]) ==
      AddressText(Naming(first, c))
  {
    var address, username, password :=
      [Setting("address", first)], [Setting("username", c.username)], [Setting("password", c.password)];
    assert [Setting("address", first), Setting("username", c.username), Setting("password", c.password)] ==
      address + (username + password);
    RenderedAppend(address, username + password);
    RenderedAppend(username, password);
    OneLine("address", first);
    OneLine("username", c.username);
    OneLine("password", c.password);
    assert "address" + "=" == "address=";
    Regroup("address=", first, "username" + "=" + c.username, "password" + "=" + c.password, "\n");
  }

  lemma Regroup(key: string, a: string, b: string, c: string, end: string)
    ensures key + a + end + (b + end + (c + end)) == key + (a + end + b + end + c) + end
  {
  }

  /** What is read back is a single line without space around it. */
  lemma ReadConfigTrimmed(file: Option<string>)
    requires ReadConfig(file).Some?
    ensures var address := ReadConfig(file).value.0;
      address != "" && NoBreak(address) && Trimmed(address)
  {
    var fields := Fields(SplitLines(file.value));
    LinesHaveNoBreak(file.value);
    FieldsNoBreak(SplitLines(file.value));
    if "address" in fields {
      StripKeepsNoBreak(fields["address"]);
      StripTrims(fields["address"]);
    }
  }

  lemma ShowTrimmed(n: nat)
    ensures Strip(Show(n)) == Show(n) && NoBreak(Show(n))
  {
    ShowDigits(n);
    StripTrims(Show(n));
  }

  lemma {:induction false} FieldsNoBreak(lines: seq<string>)
    requires forall i | 0 <= i < |lines| :: NoBreak(lines[i])
    ensures forall k | k in Fields(lines) :: NoBreak(Fields(lines)[k])
  {
    if lines == [] {
    } else {
      FieldsNoBreak(lines[..|lines| - 1]);
    }
  }

  /** The bind read back is the bind given, for exactly the addresses that are a single line with
      something on it and no space around it; every other address text reads back as another bind. */
  lemma BindRoundTrip(address: string, port: nat, keyPath: string, c: Option<Credentials>)
    requires PlainPath(keyPath) && (c.Some? ==> Acceptable(c.value))
    ensures ReadConfig(Some(ConfigFile(address, port, keyPath, c))) == Some((address, port as int))
       <==> address != "" && Trimmed(address) && NoBreak(address)
  {
    StripTrims(address);
    ConfigReadsAny(address, port, keyPath, c);
    if NoBreak(address) {
      EffectiveSingle(address);
    } else if ReadConfig(Some(ConfigFile(address, port, keyPath, c))).Some? {
      ReadConfigTrimmed(Some(ConfigFile(address, port, keyPath, c)));
    }
  }
}
