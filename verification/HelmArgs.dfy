/** The HELM_ARGS text handed to Argo CD: printed one argument a line, it can be read back exactly. */
module HelmArgs {
  import opened Records
  import Text

  // ---------- escaping ----------

  /** Every occurrence of one character replaced by a text. */
  function Replace(s: string, c: char, to: string): string {
    if s == "" then "" else (if s[0] == c then to else [s[0]]) + Replace(s[1..], c, to)
  }

  /** Backslashes are doubled first, then commas are escaped. */
  function Escape(value: string): string {
    Replace(Replace(value, '\\', "\\\\"), ',', "\\,")
  }

  /** Undo the escapes; an unescaped comma or a dangling backslash is no value. */
  function Unescape(text: string): Option<string> {
    if text == "" then Some("")
    else if text[0] == ',' then None
    else if text[0] == '\\' then
      if |text| == 1 then None
      else match Unescape(text[2..]) case None => None case Some(rest) => Some([text[1]] + rest)
    else match Unescape(text[1..]) case None => None case Some(rest) => Some([text[0]] + rest)
  }

  lemma {:induction false} ReplaceConcat(a: string, b: string, c: char, to: string)
    ensures Replace(a + b, c, to) == Replace(a, c, to) + Replace(b, c, to)
  {
    if a == "" {
      assert a + b == b;
    } else {
      assert (a + b)[1..] == a[1..] + b;
      ReplaceConcat(a[1..], b, c, to);
    }
  }

  lemma EscapeFirst(c: char, rest: string)
    ensures Escape([c] + rest) == (if c == '\\' then "\\\\" else if c == ',' then "\\," else [c]) + Escape(rest)
  {
    var head := if c == '\\' then "\\\\" else [c];
    assert ([c] + rest)[1..] == rest;
    assert Replace([c] + rest, '\\', "\\\\") == head + Replace(rest, '\\', "\\\\");
    ReplaceConcat(head, Replace(rest, '\\', "\\\\"), ',', "\\,");
    if c == '\\' {
      assert Replace("\\\\"[1..], ',', "\\,") == "\\" + Replace("\\\\"[1..][1..], ',', "\\,");
      assert Replace("\\\\", ',', "\\,") == "\\\\";
    } else {
      assert [c][1..] == "";
      assert Replace([c], ',', "\\,") == if c == ',' then "\\," else [c];
    }
  }

  /** Every value survives the round trip, whatever characters it holds. */
  lemma {:induction false} UnescapeEscape(value: string)
    ensures Unescape(Escape(value)) == Some(value)
  {
    if value != "" {
      var c, rest := value[0], value[1..];
      assert value == [c] + rest;
      EscapeFirst(c, rest);
      UnescapeEscape(rest);
      var e := Escape(rest);
      if c == '\\' { assert ("\\\\" + e)[2..] == e; }
      else if c == ',' { assert ("\\," + e)[2..] == e; }
      else { assert ([c] + e)[1..] == e; }
    }
  }

  // ---------- splitting ----------

  function Split(s: string, c: char): (parts: seq<string>)
    ensures |parts| > 0
  {
    if s == "" then [""]
    else if s[0] == c then [""] + Split(s[1..], c)
    else [[s[0]] + Split(s[1..], c)[0]] + Split(s[1..], c)[1..]
  }

  function Join(parts: seq<string>, c: char): string {
    if parts == [] then "" else if |parts| == 1 then parts[0] else parts[0] + [c] + Join(parts[1..], c)
  }

  predicate Lacks(s: string, c: char) {
    forall k :: 0 <= k < |s| ==> s[k] != c
  }

  lemma {:induction false} SplitFirst(a: string, b: string, c: char)
    requires Lacks(a, c)
    ensures Split(a + [c] + b, c) == [a] + Split(b, c)
  {
    if a == "" {
      assert a + [c] + b == [c] + b && ([c] + b)[1..] == b;
    } else {
      var whole := a + [c] + b;
      assert whole[1..] == a[1..] + [c] + b;
      assert Lacks(a[1..], c) by { forall k | 0 <= k < |a[1..]| ensures a[1..][k] != c { assert a[1..][k] == a[k + 1]; } }
      SplitFirst(a[1..], b, c);
      assert [whole[0]] + a[1..] == a;
    }
  }

  lemma {:induction false} SplitWhole(a: string, c: char)
    requires Lacks(a, c)
    ensures Split(a, c) == [a]
  {
    if a != "" {
      assert Lacks(a[1..], c) by { forall k | 0 <= k < |a[1..]| ensures a[1..][k] != c { assert a[1..][k] == a[k + 1]; } }
      SplitWhole(a[1..], c);
      assert [a[0]] + a[1..] == a;
    }
  }

  lemma {:induction false} SplitLacks(s: string, c: char)
    ensures forall part <- Split(s, c) :: Lacks(part, c)
  {
    if s != "" {
      SplitLacks(s[1..], c);
      var rest := Split(s[1..], c);
      assert Lacks(rest[0], c);
      forall k | 0 <= k < |Split(s, c)| ensures Lacks(Split(s, c)[k], c) {
        if k > 0 { assert Split(s, c)[k] == if s[0] == c then rest[k - 1] else rest[k]; }
      }
    }
  }

  lemma {:induction false} JoinSplits(parts: seq<string>, c: char)
    requires parts != [] && forall part <- parts :: Lacks(part, c)
    ensures Split(Join(parts, c), c) == parts
    decreases |parts|
  {
    if |parts| == 1 {
      SplitWhole(parts[0], c);
    } else {
      JoinSplits(parts[1..], c);
      SplitFirst(parts[0], Join(parts[1..], c), c);
    }
  }

  /** A joined list can be split back exactly when it is not empty and no element holds the separator. */
  lemma SplitUndoesJoin(parts: seq<string>, c: char)
    ensures Split(Join(parts, c), c) == parts <==> parts != [] && forall part <- parts :: Lacks(part, c)
  {
    if parts != [] && forall part <- parts :: Lacks(part, c) { JoinSplits(parts, c); }
    SplitLacks(Join(parts, c), c);
  }

  // ---------- one argument ----------

  predicate SingleLine(s: string) {
    Lacks(s, '\n') && Lacks(s, '\r')
  }

  /** A configured values file is stored without line breaks. */
  type Line = s: string | SingleLine(s)

  datatype Argument = Argument(name: string, value: string)

  const SET := "--set "

  /** `_helm_scalar_argument`; a value with a line break is rejected. */
  function ScalarArgument(argument: Argument): Option<string> {
    if '\r' in argument.value || '\n' in argument.value then None
    else Some(SET + argument.name + "=" + Escape(argument.value))
  }

  function FirstEquals(s: string): (k: nat)
    ensures k <= |s| && (k < |s| ==> s[k] == '=') && forall j :: 0 <= j < k ==> s[j] != '='
  {
    if s == "" || s[0] == '=' then 0 else 1 + FirstEquals(s[1..])
  }

  /** Read one line back; lines that are no assignments carry no argument. */
  function ReadLine(line: string): Option<Argument> {
    if !("--set " <= line) then None
    else
      var text := line[6..];
      var k := FirstEquals(text);
      if k == |text| then None
      else match Unescape(text[k + 1..]) case None => None case Some(value) => Some(Argument(text[..k], value))
  }

  lemma FirstEqualsAt(name: string, rest: string)
    requires Lacks(name, '=')
    ensures FirstEquals(name + "=" + rest) == |name|
  {
    var text := name + "=" + rest;
    var k := FirstEquals(text);
    assert text[|name|] == '=';
    assert forall j :: 0 <= j < |name| ==> text[j] == name[j];
  }

  lemma ReadPrinted(argument: Argument)
    requires Lacks(argument.name, '=') && ScalarArgument(argument).Some?
    ensures ReadLine(ScalarArgument(argument).value) == Some(argument)
  {
    var line := ScalarArgument(argument).value;
    var text := argument.name + "=" + Escape(argument.value);
    assert SET == "--set " && line == SET + text && line[6..] == text;
    FirstEqualsAt(argument.name, Escape(argument.value));
    assert text[..|argument.name|] == argument.name && text[|argument.name| + 1..] == Escape(argument.value);
    UnescapeEscape(argument.value);
  }

  lemma {:induction false} EscapeStaysOnLine(value: string)
    requires SingleLine(value)
    ensures SingleLine(Escape(value))
  {
    if value != "" {
      assert value == [value[0]] + value[1..];
      assert SingleLine(value[1..]) by {
        forall k | 0 <= k < |value[1..]| ensures value[1..][k] != '\n' && value[1..][k] != '\r' { assert value[1..][k] == value[k + 1]; }
      }
      EscapeFirst(value[0], value[1..]);
      EscapeStaysOnLine(value[1..]);
    }
  }

  lemma PrintedStaysOnLine(argument: Argument)
    requires SingleLine(argument.name) && ScalarArgument(argument).Some?
    ensures SingleLine(ScalarArgument(argument).value)
  {
    EscapeStaysOnLine(argument.value);
    assert SingleLine(SET) && SingleLine("=");
  }

  // ---------- the users and administrators ----------

  const ADMIN := "admin"

  datatype Entry = Entry(username: string, admin: bool)

  function Admins(defaults: seq<string>, members: seq<Entry>): set<string> {
    {ADMIN} + (set d <- defaults) + (set m <- members | m.admin :: m.username)
  }

  function Users(defaults: seq<string>, members: seq<Entry>): set<string> {
    {ADMIN} + (set d <- defaults) + (set m <- members :: m.username)
  }

  /** `_member_values`. */
  method MemberValues(defaults: seq<string>, members: seq<Entry>) returns (users: seq<string>, admins: seq<string>)
    ensures users == Text.Sorted(Users(defaults, members)) && admins == Text.Sorted(Admins(defaults, members))
  {
    var adminSet := {ADMIN} + set d <- defaults;
    var userSet := adminSet;
    var k := 0;
    while k < |members|
      invariant k <= |members|
      invariant adminSet == Admins(defaults, members[..k]) && userSet == Users(defaults, members[..k])
    {
      assert members[..k + 1] == members[..k] + [members[k]];
      userSet := userSet + {members[k].username};
      if members[k].admin { adminSet := adminSet + {members[k].username}; }
      k := k + 1;
    }
    assert members[..|members|] == members;
    users := Text.Sort(userSet);
    admins := Text.Sort(adminSet);
  }

  // ---------- the whole text ----------

  datatype Values = Values(domain: string, slug: string, managed: string, host: string, database: string, schema: string,
                           kube: Option<string>)

  const ALLOWED := "policy.config.allowedUsernames"
  const ADMINISTRATORS := "policy.config.adminUsernames"
  const DOMAIN := "global.baseDomain"
  const IDENTIFIER := "global.identifier"
  const DB_USERNAME := "server.config.postgres.username"
  const DB_PASSWORD := "server.config.postgres.password"
  const DB_HOST := "server.config.postgres.host"
  const DB_NAME := "server.config.postgres.database"
  const DB_SCHEMA := "server.config.postgres.schema"
  const KUBE := "server.config.kube"

  const NAMESPACE := "--namespace app-code-instance"

  function Arguments(users: seq<string>, admins: seq<string>, v: Values): seq<Argument> {
    [ Argument(ALLOWED, Join(users, ',')),
      Argument(ADMINISTRATORS, Join(admins, ',')),
      Argument(DOMAIN, v.domain),
      Argument(IDENTIFIER, v.slug),
      Argument(DB_USERNAME, "<secret:" + v.managed + "#username>"),
      Argument(DB_PASSWORD, "<secret:" + v.managed + "#password>"),
      Argument(DB_HOST, v.host),
      Argument(DB_NAME, v.database),
      Argument(DB_SCHEMA, v.schema)
    ] + if v.kube.Some? then [Argument(KUBE, v.kube.value)] else []
  }

  function Printed(arguments: seq<Argument>): Option<seq<string>> {
    if arguments == [] then Some([])
    else match ScalarArgument(arguments[0])
      case None => None
      case Some(line) => (match Printed(arguments[1..]) case None => None case Some(lines) => Some([line] + lines))
  }

  function Preamble(additional: Option<Line>): seq<string> {
    (if additional.Some? then ["--values " + additional.value] else []) + [NAMESPACE]
  }

  function HelmArguments(additional: Option<Line>, arguments: seq<Argument>): Option<string> {
    match Printed(arguments)
    case None => None
    case Some(lines) => Some(Join(Preamble(additional) + lines, '\n') + "\n")
  }

  /** The lines of the arguments, appended one by one; the first rejected value ends the assembly. */
  method AppendLines(start: seq<string>, arguments: seq<Argument>) returns (lines: Option<seq<string>>)
    ensures lines == match Printed(arguments) case None => None case Some(printed) => Some(start + printed)
  {
    var built := start;
    var k := 0;
    assert arguments[0..] == arguments && start + [] == start;
    while k < |arguments|
      invariant k <= |arguments|
      invariant match Printed(arguments[k..])
                case None => Printed(arguments).None?
                case Some(rest) => Printed(arguments).Some? && start + Printed(arguments).value == built + rest
    {
      var line := ScalarArgument(arguments[k]);
      assert arguments[k..][0] == arguments[k] && arguments[k..][1..] == arguments[k + 1..];
      if line.None? { return None; }
      built := built + [line.value];
      k := k + 1;
    }
    assert arguments[|arguments|..] == [] && built + [] == built;
    lines := Some(built);
  }

  /** The assembly in `application_payload`: a list of lines, one of them inserted in front. */
  method BuildHelmArguments(additional: Option<Line>, defaults: seq<string>, members: seq<Entry>, v: Values)
    returns (text: Option<string>)
    ensures text == HelmArguments(additional, Arguments(Text.Sorted(Users(defaults, members)), Text.Sorted(Admins(defaults, members)), v))
    ensures text.Some? ==> Tells(text.value, Text.Sorted(Users(defaults, members)), Text.Sorted(Admins(defaults, members)), v)
  {
    hide Tells;
    var users, admins := MemberValues(defaults, members);
    var lines := [NAMESPACE];
    if additional.Some? { lines := ["--values " + additional.value] + lines; }
    assert lines == Preamble(additional);
    hide Arguments, Preamble, Printed, Join, Users, Admins;
    var all := AppendLines(lines, Arguments(users, admins, v));
    text := match all case None => None case Some(built) => Some(Join(built, '\n') + "\n");
    if text.Some? { TextTells(additional, users, admins, v); }
  }

  // ---------- reading it back ----------

  function ReadLines(lines: seq<string>): seq<Argument> {
    if lines == [] then []
    else (match ReadLine(lines[0]) case None => [] case Some(argument) => [argument]) + ReadLines(lines[1..])
  }

  predicate Named(argument: Argument) {
    IsName(argument.name)
  }

  lemma {:induction false} ReadPrintedLines(arguments: seq<Argument>)
    requires Printed(arguments).Some? && forall a <- arguments :: Named(a)
    ensures ReadLines(Printed(arguments).value) == arguments
    ensures forall line <- Printed(arguments).value :: SingleLine(line)
  {
    if arguments != [] {
      assert Named(arguments[0]);
      ReadPrinted(arguments[0]);
      PrintedStaysOnLine(arguments[0]);
      ReadPrintedLines(arguments[1..]);
    }
  }

  lemma {:induction false} ReadConcat(a: seq<string>, b: seq<string>)
    ensures ReadLines(a + b) == ReadLines(a) + ReadLines(b)
  {
    if a == [] {
      assert a + b == b;
    } else {
      assert (a + b)[1..] == a[1..] + b;
      ReadConcat(a[1..], b);
    }
  }

  lemma NamespaceIsNoArgument()
    ensures ReadLine(NAMESPACE).None? && SingleLine(NAMESPACE)
  {
    assert NAMESPACE[2] == 'n' && SET[2] == 's' && !(SET <= NAMESPACE);
    assert SingleLine(NAMESPACE) by { hide ReadLine; }
  }

  lemma ValuesIsNoArgument(file: Line)
    ensures ReadLine("--values " + file).None? && SingleLine("--values " + file)
  {
    assert ("--values " + file)[2] == 'v' && SET[2] == 's';
    assert SingleLine("--values ");
  }

  lemma PreambleIsNoArgument(additional: Option<Line>)
    ensures ReadLines(Preamble(additional)) == [] && forall line <- Preamble(additional) :: SingleLine(line)
  {
    NamespaceIsNoArgument();
    hide ReadLine, SingleLine;
    assert ReadLines([NAMESPACE]) == [];
    if additional.Some? {
      ValuesIsNoArgument(additional.value);
      ReadConcat(["--values " + additional.value], [NAMESPACE]);
    }
  }

  /** Splitting the text on newlines and undoing the escapes recovers every name and value. */
  lemma ReadBack(additional: Option<Line>, arguments: seq<Argument>)
    requires HelmArguments(additional, arguments).Some? && forall a <- arguments :: Named(a)
    ensures ReadLines(Split(HelmArguments(additional, arguments).value, '\n')) == arguments
  {
    TextLines(additional, arguments);
    var lines := Preamble(additional) + Printed(arguments).value;
    assert Split(HelmArguments(additional, arguments).value, '\n') == lines + [""];
    hide Named, Printed, Preamble, ReadLines, SingleLine, Join, Split;
    ReadPrintedLines(arguments);
    PreambleIsNoArgument(additional);
    ReadConcat(lines, [""]);
    ReadConcat(Preamble(additional), Printed(arguments).value);
    ReadNothing();
  }

  lemma OnOneLine(line: string)
    ensures SingleLine(line) ==> Lacks(line, '\n')
    ensures Lacks("", '\n')
  {}

  lemma ReadNothing()
    ensures ReadLines([""]) == []
  {}

  /** The user lists of the text: administrators are users, and splitting the two values at commas
      recovers both sorted lists when no username holds a comma, which the schema demands. */
  lemma UsernamesReadBack(defaults: seq<string>, members: seq<Entry>)
    requires forall u <- Users(defaults, members) :: Lacks(u, ',')
    ensures Admins(defaults, members) <= Users(defaults, members)
    ensures Split(Join(Text.Sorted(Users(defaults, members)), ','), ',') == Text.Sorted(Users(defaults, members))
    ensures Split(Join(Text.Sorted(Admins(defaults, members)), ','), ',') == Text.Sorted(Admins(defaults, members))
  {
    SortedSplits(Users(defaults, members));
    SortedSplits(Admins(defaults, members));
  }

  lemma SortedSplits(names: set<string>)
    requires ADMIN in names && forall u <- names :: Lacks(u, ',')
    ensures Split(Join(Text.Sorted(names), ','), ',') == Text.Sorted(names)
  {
    var sorted := Text.Sorted(names);
    assert Text.Elements(sorted) == names;
    assert ADMIN in Text.Elements(sorted);
    forall u <- sorted ensures Lacks(u, ',') { assert u in Text.Elements(sorted); }
    JoinSplits(sorted, ',');
  }

  lemma {:induction false} JoinEmpty(parts: seq<string>, c: char)
    requires parts != []
    ensures Join(parts + [""], c) == Join(parts, c) + [c]
    decreases |parts|
  {
    if |parts| == 1 {
      assert (parts + [""])[1..] == [""];
    } else {
      assert (parts + [""])[1..] == parts[1..] + [""];
      JoinEmpty(parts[1..], c);
    }
  }

  predicate IsName(name: string) {
    Lacks(name, '=') && SingleLine(name)
  }

  lemma NamesAre1()
    ensures IsName(ALLOWED) && IsName(ADMINISTRATORS)
  {}

  lemma NamesAre2()
    ensures IsName(DOMAIN) && IsName(IDENTIFIER)
  {}

  lemma NamesAre3()
    ensures IsName(DB_USERNAME) && IsName(DB_PASSWORD)
  {}

  lemma NamesAre4()
    ensures IsName(DB_HOST) && IsName(DB_NAME)
  {}

  lemma NamesAre5()
    ensures IsName(DB_SCHEMA) && IsName(KUBE)
  {}

  lemma ArgumentsAreNamed(users: seq<string>, admins: seq<string>, v: Values)
    ensures forall a <- Arguments(users, admins, v) :: Named(a)
  {
    NamesAre1(); NamesAre2(); NamesAre3(); NamesAre4(); NamesAre5();
    hide Lacks, SingleLine, Join;
  }

  // ---------- what the text says ----------

  /** Exactly one argument has the name, and it has the value. */
  predicate Says(read: seq<Argument>, name: string, value: string) {
    exists k :: 0 <= k < |read| && read[k] == Argument(name, value) && forall j :: 0 <= j < |read| && read[j].name == name ==> j == k
  }

  predicate DistinctArguments(read: seq<Argument>) {
    forall j, k :: 0 <= j < k < |read| ==> read[j].name != read[k].name
  }

  /** What a text tells the plugin, name by name. */
  ghost predicate Tells(text: string, users: seq<string>, admins: seq<string>, v: Values) {
    var read := ReadLines(Split(text, '\n'));
    && |read| == (if v.kube.Some? then 10 else 9)
    && Says(read, "policy.config.allowedUsernames", Join(users, ','))
    && Says(read, "policy.config.adminUsernames", Join(admins, ','))
    && Says(read, "global.baseDomain", v.domain)
    && Says(read, "global.identifier", v.slug)
    && Says(read, "server.config.postgres.username", "<secret:" + v.managed + "#username>")
    && Says(read, "server.config.postgres.password", "<secret:" + v.managed + "#password>")
    && Says(read, "server.config.postgres.host", v.host)
    && Says(read, "server.config.postgres.database", v.database)
    && Says(read, "server.config.postgres.schema", v.schema)
    && (v.kube.Some? ==> Says(read, "server.config.kube", v.kube.value))
  }

  lemma DistinctSays(read: seq<Argument>, k: nat)
    requires DistinctArguments(read) && k < |read|
    ensures Says(read, read[k].name, read[k].value)
  {
    assert read[k] == Argument(read[k].name, read[k].value);
    forall j | 0 <= j < |read| && read[j].name == read[k].name ensures j == k {}
  }

  /** The names differ: most in length, the others in one character. */
  lemma NamesDiffer()
    ensures ALLOWED != DB_USERNAME && ALLOWED != DB_PASSWORD && ALLOWED != DB_NAME
    ensures DOMAIN[7] != IDENTIFIER[7] && DB_USERNAME[23] != DB_PASSWORD[23] && DB_USERNAME[23] != DB_NAME[23] && DB_PASSWORD[23] != DB_NAME[23]
    ensures |ALLOWED| == 30 && |ADMINISTRATORS| == 28 && |DOMAIN| == 17 && |IDENTIFIER| == 17 && |DB_USERNAME| == 31
    ensures |DB_PASSWORD| == 31 && |DB_HOST| == 27 && |DB_NAME| == 31 && |DB_SCHEMA| == 29 && |KUBE| == 18
  {}

  lemma DistinctNamesOf(users: seq<string>, admins: seq<string>, v: Values)
    ensures DistinctArguments(Arguments(users, admins, v))
  {
    NamesDiffer();
    var a := Arguments(users, admins, v);
    assert |a| <= 10;
    hide Join;
    forall j, k | 0 <= j < k < |a| ensures a[j].name != a[k].name {
      DifferentNames(users, admins, v, j, k);
    }
  }

  lemma DifferentNames(users: seq<string>, admins: seq<string>, v: Values, j: nat, k: nat)
    requires j < k < |Arguments(users, admins, v)|
    ensures Arguments(users, admins, v)[j].name != Arguments(users, admins, v)[k].name
  {
    NamesDiffer();
    hide Join;
    var a := Arguments(users, admins, v);
    assert |a[0].name| == 30 && |a[1].name| == 28 && |a[2].name| == 17 && |a[3].name| == 17 && |a[4].name| == 31;
    assert |a[5].name| == 31 && |a[6].name| == 27 && |a[7].name| == 31 && |a[8].name| == 29;
    assert a[2].name[7] != a[3].name[7] && a[4].name[23] != a[5].name[23] && a[4].name[23] != a[7].name[23] && a[5].name[23] != a[7].name[23];
    assert k == 9 ==> |a[9].name| == 18;
  }

  /** The built-in administrator and the default administrators are always there; members join the users, and
      the administrators by their role. */
  lemma UsersExactly(defaults: seq<string>, members: seq<Entry>, u: string)
    ensures u in Users(defaults, members) <==> u == "admin" || u in defaults || exists m <- members :: m.username == u
    ensures u in Admins(defaults, members) <==> u == "admin" || u in defaults || exists m <- members :: m.username == u && m.admin
  {}

  /** The lines of the text: the additional values first, then the namespace, then one argument a line. */
  lemma TextLines(additional: Option<Line>, arguments: seq<Argument>)
    requires HelmArguments(additional, arguments).Some? && forall a <- arguments :: Named(a)
    ensures Printed(arguments).Some?
    ensures Split(HelmArguments(additional, arguments).value, '\n') ==
            (if additional.Some? then ["--values " + additional.value] else []) + ["--namespace app-code-instance"] + Printed(arguments).value + [""]
  {
    var lines := Preamble(additional) + Printed(arguments).value;
    assert lines != [];
    assert Preamble(additional) == (if additional.Some? then ["--values " + additional.value] else []) + ["--namespace app-code-instance"];
    hide Named, Printed, Preamble, ReadLines, SingleLine, Join, Split;
    ReadPrintedLines(arguments);
    PreambleIsNoArgument(additional);
    JoinEmpty(lines, '\n');
    forall line <- lines + [""] ensures Lacks(line, '\n') { OnOneLine(line); }
    JoinSplits(lines + [""], '\n');
  }

  /** Every value stands under its own name, once. */
  lemma TextTells(additional: Option<Line>, users: seq<string>, admins: seq<string>, v: Values)
    requires HelmArguments(additional, Arguments(users, admins, v)).Some?
    ensures Tells(HelmArguments(additional, Arguments(users, admins, v)).value, users, admins, v)
  {
    var a := Arguments(users, admins, v);
    ArgumentsAreNamed(users, admins, v);
    ReadBack(additional, a);
    DistinctNamesOf(users, admins, v);
    TenArguments(users, admins, v);
    hide HelmArguments, ReadLines, Split, Arguments, DistinctArguments, Says, Join, Named;
    DistinctSays(a, 0); DistinctSays(a, 1); DistinctSays(a, 2); DistinctSays(a, 3); DistinctSays(a, 4);
    DistinctSays(a, 5); DistinctSays(a, 6); DistinctSays(a, 7); DistinctSays(a, 8);
    if v.kube.Some? { DistinctSays(a, 9); }
  }

  lemma TenArguments(users: seq<string>, admins: seq<string>, v: Values)
    ensures var a := Arguments(users, admins, v);
            && |a| == (if v.kube.Some? then 10 else 9)
            && a[0] == Argument("policy.config.allowedUsernames", Join(users, ','))
            && a[1] == Argument("policy.config.adminUsernames", Join(admins, ','))
            && a[2] == Argument("global.baseDomain", v.domain) && a[3] == Argument("global.identifier", v.slug)
            && a[4] == Argument("server.config.postgres.username", "<secret:" + v.managed + "#username>")
            && a[5] == Argument("server.config.postgres.password", "<secret:" + v.managed + "#password>")
            && a[6] == Argument("server.config.postgres.host", v.host)
            && a[7] == Argument("server.config.postgres.database", v.database)
            && a[8] == Argument("server.config.postgres.schema", v.schema)
            && (v.kube.Some? ==> a[9] == Argument("server.config.kube", v.kube.value))
  {
    hide Join;
  }

  /** The assembly fails exactly for a value with a line break. */
  lemma {:induction false} PrintedExactly(arguments: seq<Argument>)
    ensures Printed(arguments).None? <==> exists a <- arguments :: '\n' in a.value || '\r' in a.value
  {
    if arguments != [] {
      PrintedExactly(arguments[1..]);
      assert forall a <- arguments :: a == arguments[0] || a in arguments[1..];
      assert arguments[0] in arguments;
      hide Escape;
    }
  }

  // ---------- merging the desired application into the existing one ----------

  /** `foreign` holds the other fields of the metadata; a missing label map reads as an empty one. */
  datatype Metadata = Metadata(name: string, labels: map<string, string>, foreign: map<string, string>)

  /** What Argo CD answers may lack everything but the spec. */
  datatype Application = Application(apiVersion: Option<string>, kind: Option<string>, metadata: Option<Metadata>, spec: string)

  datatype Desired = Desired(apiVersion: string, kind: string, name: string, labels: map<string, string>, spec: string)

  const LEGACY := {"coder-manager/managed", "environment"}

  function Kept(existing: Option<string>, desired: string): Option<string> {
    if existing.Some? then existing else Some(desired)
  }

  /** `application_update_payload`: server metadata and foreign labels stay, the legacy labels go, and the
      manager's own labels and the whole spec are replaced; without metadata it raises. */
  function Merge(existing: Application, desired: Desired): Option<Application> {
    match existing.metadata
    case None => None
    case Some(metadata) =>
      var labels := (metadata.labels - LEGACY) + desired.labels;
      Some(Application(Kept(existing.apiVersion, desired.apiVersion), Kept(existing.kind, desired.kind),
                       Some(Metadata(desired.name, labels, metadata.foreign)), desired.spec))
  }

  /** Only missing metadata is rejected. Reconciling twice changes nothing more, what Argo CD owns and
      foreign labels survive, and the desired name, labels and spec win. */
  lemma MergeConverges(existing: Application, desired: Desired)
    ensures Merge(existing, desired).None? <==> existing.metadata.None?
    ensures existing.metadata.Some? ==>
              var merged := Merge(existing, desired).value;
              && Merge(merged, desired) == Some(merged) && merged.spec == desired.spec
              && (existing.apiVersion.Some? ==> merged.apiVersion == existing.apiVersion)
              && (existing.kind.Some? ==> merged.kind == existing.kind)
              && merged.apiVersion.Some? && merged.kind.Some? && merged.metadata.Some?
              && merged.metadata.value.name == desired.name && merged.metadata.value.foreign == existing.metadata.value.foreign
              && LabelsMerged(existing.metadata.value.labels, desired.labels, merged.metadata.value.labels)
  {
    if existing.metadata.Some? {
      var labels := existing.metadata.value.labels;
      assert (((labels - LEGACY) + desired.labels) - LEGACY) + desired.labels == (labels - LEGACY) + desired.labels;
    }
  }

  predicate LabelsMerged(existing: map<string, string>, desired: map<string, string>, merged: map<string, string>) {
    && (forall l <- desired :: l in merged && merged[l] == desired[l])
    && (forall l <- existing :: l != "coder-manager/managed" && l != "environment" && l !in desired ==>
          l in merged && merged[l] == existing[l])
    && (forall l <- merged :: l in desired || (l in existing && l != "coder-manager/managed" && l != "environment"))
  }
}
