/**
 * The session-bootstrap logic of the mosh client front end
 * (src/frontend/mosh.cc): option handling, the prediction-mode check, the
 * server-port request check, the parsing of the server's
 * `MOSH CONNECT <port> <key>` line and the final gate before the client
 * starts. `die` becomes an `Err` result; the ssh session that produces the
 * server's output is not modelled, its collected output is an input.
 */
module MoshBootstrap {
  import opened Wrappers
  import opened StringSearch

  const Digits: string := "0123456789"
  const Whitespace: string := " \t\n\r"
  /**
   * The key alphabet, "ABC...XYZabc...xyz0123456789/+", built from its
   * three runs of consecutive characters (`KeyAlphabetSpelledOut` checks
   * it against the spelled-out string).
   */
  const KeyValidCharSet: string := CharRange('A', 26) + CharRange('a', 26) + CharRange('0', 10) + "/+"
  const ConnectPrefix: string := "MOSH CONNECT "
  const KeyLength: nat := 22
  const MaxPort: nat := 65535
  const LocalHost: string := "127.0.0.1"
  const PredictModes: set<string> := {"adaptive", "always", "never"}

  /** The fatal ends of the bootstrap: each is a `die` call. */
  datatype Fatal =
    | Usage                                   // unknown option or --help: usage text
    | VersionInfo                             // --version: version text
    | UnknownMode(mode: string, fromEnv: bool) // predict_check failed
    | BadPort(request: string)                // port request not a number in [0..65535]
    | NoStartupMessage                        // key or port still empty

  /** An option as `getopt_long` returns it. */
  datatype Opt =
    | ClientPath(path: string)      // --client=PATH
    | ServerPath(path: string)      // --server=PATH
    | PredictMode(mode: string)     // --predict=MODE
    | PortRequest(port: string)     // -p NUM, --port=NUM
    | SshCommand(command: string)   // --ssh=COMMAND
    | KeyGiven(key: string)         // --key=KEY
    | HelpFlag                      // --help
    | VersionFlag                   // --version
    | FakeProxyFlag                 // --fake-proxy!
    | AlwaysFlag                    // -a
    | NeverFlag                     // -n
    | Unrecognized                  // anything else: '?'

  /** The variables the option loop assigns. */
  datatype Config = Config(client: string, server: string, ssh: string, predict: string,
                           portRequest: string, key: string, help: bool, version: bool, fakeProxy: bool)

  /** Their values before the loop. */
  const Defaults: Config := Config("mosh-client", "mosh-server", "ssh", "", "", "", false, false, false)

  /** What the client is started with. */
  datatype Launch = Launch(ip: string, port: string, key: string, predict: string)

  predicate IsDigit(c: char)
  {
    '0' <= c <= '9'
  }

  predicate AllDigits(s: string)
  {
    forall k :: 0 <= k < |s| ==> IsDigit(s[k])
  }

  /** The digit set the source searches with is exactly the decimal digits. */
  lemma DigitsAreDecimal(c: char)
    ensures c in Digits <==> IsDigit(c)
  {
    if IsDigit(c) {
      assert Digits[c as int - '0' as int] == c;
    }
  }

  // ---------------------------------------------------------------- options

  /** One pass of the `switch` in the option loop (an unrecognised option never gets here). */
  function ApplyOption(c: Config, o: Opt): Config
  {
    match o
    case ClientPath(p) => c.(client := p)
    case ServerPath(p) => c.(server := p)
    case PredictMode(m) => c.(predict := m)
    case PortRequest(p) => c.(portRequest := p)
    case SshCommand(s) => c.(ssh := s)
    case KeyGiven(k) => c.(key := k)
    case HelpFlag => c.(help := true)
    case VersionFlag => c.(version := true)
    case FakeProxyFlag => c.(fakeProxy := true)
    case AlwaysFlag => c.(predict := "always")
    case NeverFlag => c.(predict := "never")
    case Unrecognized => c
  }

  /** The variables after the loop has applied `opts` in order. */
  function FoldOptions(opts: seq<Opt>): Config
  {
    if opts == [] then Defaults else ApplyOption(FoldOptions(opts[..|opts| - 1]), opts[|opts| - 1])
  }

  /**
   * The option loop: options are applied in order, and the first
   * unrecognised one ends the program with the usage text.
   */
  method ParseOptions(opts: seq<Opt>) returns (r: Result<Config, Fatal>)
    ensures r.Err? <==> exists k :: 0 <= k < |opts| && opts[k].Unrecognized?
    ensures r.Err? ==> r.error == Usage
    ensures r.Ok? ==> r.value == FoldOptions(opts)
  {
    var c := Defaults;
    var i := 0;
    while i < |opts|
      invariant 0 <= i <= |opts|
      invariant c == FoldOptions(opts[..i])
      invariant forall k :: 0 <= k < i ==> !opts[k].Unrecognized?
    {
      if opts[i].Unrecognized? {
        return Err(Usage);
      }
      assert opts[..i + 1][..i] == opts[..i];
      c := ApplyOption(c, opts[i]);
      i := i + 1;
    }
    assert opts[..i] == opts;
    r := Ok(c);
  }

  /** The options that assign `predict`. */
  predicate SetsPredict(o: Opt)
  {
    o.PredictMode? || o.AlwaysFlag? || o.NeverFlag?
  }

  /** The mode such an option assigns. */
  function PredictValue(o: Opt): string
    requires SetsPredict(o)
  {
    match o
    case PredictMode(m) => m
    case AlwaysFlag => "always"
    case NeverFlag => "never"
  }

  /** The last of `--predict`, `-a` and `-n` on the command line decides `predict`. */
  lemma {:induction false} LastPredictWins(opts: seq<Opt>, k: nat)
    requires k < |opts| && SetsPredict(opts[k])
    requires forall j :: k < j < |opts| ==> !SetsPredict(opts[j])
    ensures FoldOptions(opts).predict == PredictValue(opts[k])
  {
    var last := |opts| - 1;
    if k < last {
      LastPredictWins(opts[..last], k);
      assert !SetsPredict(opts[last]);
    }
  }

  /** Without any of them, `predict` stays empty. */
  lemma {:induction false} NoPredictOption(opts: seq<Opt>)
    requires forall j :: 0 <= j < |opts| ==> !SetsPredict(opts[j])
    ensures FoldOptions(opts).predict == ""
  {
    if opts != [] {
      NoPredictOption(opts[..|opts| - 1]);
      assert !SetsPredict(opts[|opts| - 1]);
    }
  }

  // ------------------------------------------------------- prediction mode

  /** `predict_check`: only "adaptive", "always" and "never" are accepted; anything else is fatal. */
  function PredictCheck(mode: string, fromEnv: bool): (r: Result<string, Fatal>)
    ensures r.Ok? <==> mode in PredictModes
    ensures r.Ok? ==> r.value == mode
    ensures r.Err? ==> r.error == UnknownMode(mode, fromEnv)
  {
    if mode != "adaptive" && mode != "always" && mode != "never" then
      Err(UnknownMode(mode, fromEnv))
    else
      Ok(mode)
  }

  /**
   * The prediction-mode resolution of `main`: a non-empty command-line value
   * wins; otherwise a set `MOSH_PREDICTION_DELAY` is used (even when empty);
   * otherwise "adaptive". Whichever is chosen is checked.
   */
  function ResolvePredictMode(cmdline: string, env: Option<string>): (r: Result<string, Fatal>)
    ensures r.Ok? ==> r.value in PredictModes
    ensures cmdline != [] ==>
      && (r.Ok? <==> cmdline in PredictModes)
      && (r.Ok? ==> r.value == cmdline)
      && (r.Err? ==> r.error == UnknownMode(cmdline, false))
    ensures cmdline == [] && env.Some? ==>
      && (r.Ok? <==> env.value in PredictModes)
      && (r.Ok? ==> r.value == env.value)
      && (r.Err? ==> r.error == UnknownMode(env.value, true))
    ensures cmdline == [] && env.None? ==> r == Ok("adaptive")
  {
    if |cmdline| > 0 then PredictCheck(cmdline, false)
    else if env.Some? then PredictCheck(env.value, true)
    else PredictCheck("adaptive", false)
  }

  // ------------------------------------------------------------ port request

  /** The value of a decimal digit string (`atoi` on it, without overflow). */
  function DecimalValue(s: string): nat
    requires AllDigits(s)
  {
    if s == [] then 0 else 10 * DecimalValue(s[..|s| - 1]) + (s[|s| - 1] as int - '0' as int)
  }

  /** The plain decimal spelling of `n`. */
  function ToDecimal(n: nat): (s: string)
    ensures s != [] && AllDigits(s)
  {
    var d := (('0' as int) + n % 10) as char;
    if n < 10 then [d] else ToDecimal(n / 10) + [d]
  }

  /** Reading back the decimal spelling of a number gives the number. */
  lemma {:induction false} DecimalRoundTrip(n: nat)
    ensures DecimalValue(ToDecimal(n)) == n
  {
    var s := ToDecimal(n);
    if n >= 10 {
      DecimalRoundTrip(n / 10);
      assert s[..|s| - 1] == ToDecimal(n / 10);
    }
  }

  /**
   * The port-request check of `main`: an empty request leaves `port` as it
   * is; a non-empty one must be all decimal digits with a value in
   * [0..65535], and then becomes the port.
   */
  function CheckPortRequest(request: string, port: string): (r: Result<string, Fatal>)
    ensures r.Ok? <==> request == [] || (AllDigits(request) && DecimalValue(request) <= MaxPort)
    ensures r.Ok? ==> r.value == if request == [] then port else request
    ensures r.Err? ==> r.error == BadPort(request)
  {
    if |request| > 0 then
      var notDigit := FindFirstNotOf(request, Digits, 0);
      if notDigit.Some? then
        DigitsAreDecimal(request[notDigit.value]);
        Err(BadPort(request))
      else
        assert AllDigits(request) by {
          forall k | 0 <= k < |request| ensures IsDigit(request[k]) {
            DigitsAreDecimal(request[k]);
          }
        }
        if DecimalValue(request) > MaxPort then Err(BadPort(request)) else Ok(request)
    else
      Ok(port)
  }

  /** Every port number in range is accepted in its plain decimal spelling. */
  lemma EveryPortAccepted(n: nat, port: string)
    requires n <= MaxPort
    ensures CheckPortRequest(ToDecimal(n), port) == Ok(ToDecimal(n))
  {
    DecimalRoundTrip(n);
  }

  // ----------------------------------------------------- MOSH CONNECT line

  /** `line.compare( 0, 13, "MOSH CONNECT " ) == 0`. */
  predicate IsConnectLine(line: string)
  {
    |line| >= |ConnectPrefix| && line[..|ConnectPrefix|] == ConnectPrefix
  }

  /** A character outside the digits follows the prefix somewhere. */
  predicate HasPortTerminator(line: string)
    requires IsConnectLine(line)
  {
    exists k :: |ConnectPrefix| <= k < |line| && !IsDigit(line[k])
  }

  /** `p` is the maximal run of digits right after the prefix, and a non-digit follows it. */
  predicate PortField(line: string, p: string)
    requires IsConnectLine(line)
  {
    var start := |ConnectPrefix|;
    && start + |p| < |line|
    && line[start..start + |p|] == p
    && AllDigits(p)
    && !IsDigit(line[start + |p|])
  }

  /** The key a remainder carries: the remainder without trailing blanks, when that is 22 characters ending in a key character. */
  function KeyFrom(rest: string, key: string): string
  {
    var t := TrimRight(rest, Whitespace);
    if |t| == KeyLength && t[KeyLength - 1] in KeyValidCharSet then t else key
  }

  /** The characters of the key alphabet: letters, digits, '/' and '+'. */
  predicate IsKeyChar(c: char)
  {
    ('A' <= c <= 'Z') || ('a' <= c <= 'z') || IsDigit(c) || c == '/' || c == '+'
  }

  /** The `n` consecutive characters from `lo`. */
  function CharRange(lo: char, n: nat): string
    requires lo as int + n < 0xD800
  {
    seq(n, i requires 0 <= i < n => (lo as int + i) as char)
  }

  lemma InConcat(c: char, x: string, y: string)
    requires c in x + y
    ensures c in x || c in y
  {
    var k :| 0 <= k < |x + y| && (x + y)[k] == c;
    if k >= |x| {
      assert y[k - |x|] == c;
    }
  }

  lemma UpperCaseRun()
    ensures CharRange('A', 26) == "ABCDEFGHIJKLMNOPQRSTUVWXYZ"
  {
  }

  lemma LowerCaseRun()
    ensures CharRange('a', 26) == "abcdefghijklmnopqrstuvwxyz"
  {
  }

  lemma DigitRun()
    ensures CharRange('0', 10) == "0123456789"
  {
  }

  /** The key alphabet is the string the source spells out. */
  lemma KeyAlphabetSpelledOut()
    ensures KeyValidCharSet == "ABCDEFGHIJKLMNOPQRSTUVWXYZabcdefghijklmnopqrstuvwxyz0123456789/+"
  {
    UpperCaseRun();
    LowerCaseRun();
    DigitRun();
  }

  /** Every character of the key alphabet is a key character. */
  lemma KeyValidCharsAreKeyChars(c: char)
    requires c in KeyValidCharSet
    ensures IsKeyChar(c)
  {
    var upper, lower, digits := CharRange('A', 26), CharRange('a', 26), CharRange('0', 10);
    InConcat(c, upper + lower + digits, "/+");
    if c in upper + lower + digits {
      InConcat(c, upper + lower, digits);
      if c in upper + lower {
        InConcat(c, upper, lower);
      }
    }
  }

  /** No blank is a key character. */
  lemma WhitespaceIsNotKeyChar(c: char)
    requires c in Whitespace
    ensures c !in KeyValidCharSet
  {
    if c in KeyValidCharSet {
      KeyValidCharsAreKeyChars(c);
      assert false;
    }
  }

  /**
   * The key test of the parser: `key_end` is the last non-blank,
   * `key_valid_end` the last key character; both must be index 21, and the
   * key is then the first 22 characters. This is the remainder trimmed of
   * trailing blanks when that is 22 long and ends in a key character.
   */
  function KeyField(rest: string, key: string): (r: string)
    ensures r == KeyFrom(rest, key)
  {
    var keyEnd := FindLastNotOf(rest, Whitespace);
    var keyValidEnd := FindLastOf(rest, KeyValidCharSet);
    var t := TrimRight(rest, Whitespace);
    assert (keyValidEnd == keyEnd && keyEnd == Some(KeyLength - 1)) <==>
           (|t| == KeyLength && t[KeyLength - 1] in KeyValidCharSet) by {
      LastNotOfIsTrimEnd(rest, Whitespace);
      if keyValidEnd.Some? && keyValidEnd.value >= |t| {
        WhitespaceIsNotKeyChar(rest[keyValidEnd.value]);
      }
    }
    if keyValidEnd == keyEnd && keyEnd == Some(KeyLength - 1) then
      assert rest[..KeyLength] == t;
      rest[..KeyLength]
    else
      key
  }

  /**
   * The port part of the parser: the digit run from offset 13 becomes the
   * port when a non-digit ends it; otherwise the port is unchanged. Also
   * gives that terminator's index, `port_end`.
   */
  function PortEnd(line: string): (r: Option<nat>)
    requires IsConnectLine(line)
    ensures r.Some? <==> HasPortTerminator(line)
    ensures r.Some? ==> |ConnectPrefix| <= r.value < |line|
    ensures r.Some? ==> PortField(line, line[|ConnectPrefix|..r.value])
  {
    var start := |ConnectPrefix|;
    var r := FindFirstNotOf(line, Digits, start);
    if r.Some? then
      DigitsAreDecimal(line[r.value]);
      forall k | start <= k < r.value ensures IsDigit(line[k]) {
        DigitsAreDecimal(line[k]);
      }
      r
    else
      forall k | start <= k < |line| ensures IsDigit(line[k]) {
        DigitsAreDecimal(line[k]);
      }
      r
  }

  /**
   * The body of the parsing loop for a `MOSH CONNECT` line, as written:
   * when no non-digit follows the port digits, `port_end` is npos and
   * `port_end + 1` wraps to 0, so the key is looked for in the whole line.
   */
  function ConnectFieldsAsWritten(line: string, port: string, key: string): (r: (string, string))
    requires IsConnectLine(line)
    ensures HasPortTerminator(line) ==>
      PortField(line, r.0) && r.1 == KeyFrom(line[|ConnectPrefix| + |r.0| + 1..], key)
    ensures !HasPortTerminator(line) ==> r.0 == port && r.1 == KeyFrom(line, key)
  {
    var portEnd := PortEnd(line);
    var port' := if portEnd.Some? then line[|ConnectPrefix|..portEnd.value] else port;
    var rest := if portEnd.Some? then line[portEnd.value + 1..] else line;
    (port', KeyField(rest, key))
  }

  /**
   * The body of the parsing loop for a `MOSH CONNECT` line, as intended: the
   * key is looked for only after the character that ends the port digits.
   */
  function ConnectFields(line: string, port: string, key: string): (r: (string, string))
    requires IsConnectLine(line)
    ensures HasPortTerminator(line) ==>
      PortField(line, r.0) && r.1 == KeyFrom(line[|ConnectPrefix| + |r.0| + 1..], key)
    ensures !HasPortTerminator(line) ==> r == (port, key)
  {
    var portEnd := PortEnd(line);
    var port' := if portEnd.Some? then line[|ConnectPrefix|..portEnd.value] else port;
    var rest := if portEnd.Some? then line[portEnd.value + 1..] else [];
    (port', KeyField(rest, key))
  }

  /**
   * The two differ on a connect line of 22 characters made of the prefix and
   * digits only: as written, the whole line is taken as the key.
   */
  lemma WholeLineTakenAsKey()
    ensures var line := "MOSH CONNECT 123456789";
      && IsConnectLine(line)
      && ConnectFieldsAsWritten(line, "", "") == ("", line)
      && ConnectFields(line, "", "") == ("", "")
  {
    var line := "MOSH CONNECT 123456789";
    assert line[..|ConnectPrefix|] == ConnectPrefix;
    assert !HasPortTerminator(line) by {
      forall k | |ConnectPrefix| <= k < |line| ensures IsDigit(line[k]) {}
    }
    assert line[|line| - 1] == '9' && '9' !in Whitespace;
    assert TrimRight(line, Whitespace) == line;
    assert line[KeyLength - 1] == KeyValidCharSet[61];
  }

  /** With the intended parser a key only ever comes from text after the port field. */
  lemma KeyOnlyAfterPort(line: string, port: string, key: string)
    requires IsConnectLine(line)
    ensures var r := ConnectFields(line, port, key);
      r.1 != key ==>
        && HasPortTerminator(line) && PortField(line, r.0)
        && r.1 == TrimRight(line[|ConnectPrefix| + |r.0| + 1..], Whitespace)
        && |r.1| == KeyLength
  {
  }

  /**
   * The index of the first `MOSH CONNECT` line, where the `getline` loop
   * stops; `None` when there is none and the loop reads every line.
   */
  function FirstConnectLine(lines: seq<string>): (r: Option<nat>)
    ensures r.Some? ==> r.value < |lines| && IsConnectLine(lines[r.value])
    ensures forall j :: 0 <= j < (if r.Some? then r.value else |lines|) ==> !IsConnectLine(lines[j])
  {
    if lines == [] then None
    else if IsConnectLine(lines[0]) then Some(0)
    else
      var r := FirstConnectLine(lines[1..]);
      if r.Some? then Some(r.value + 1) else None
  }

  /**
   * The `getline` loop over the server's output: lines before the first
   * `MOSH CONNECT` line are echoed unchanged; that line, if any, sets port
   * and key through the parser as written, and nothing after it is read.
   */
  method ScanServerOutput(result: string, port: string, key: string)
    returns (port': string, key': string, echoed: seq<string>)
    ensures var lines := SplitLines(result);
      && |echoed| <= |lines| && echoed == lines[..|echoed|]
      && (forall j :: 0 <= j < |echoed| ==> !IsConnectLine(lines[j]))
      && (|echoed| < |lines| ==>
            IsConnectLine(lines[|echoed|]) && (port', key') == ConnectFieldsAsWritten(lines[|echoed|], port, key))
      && (|echoed| == |lines| ==> port' == port && key' == key)
    ensures var lines := SplitLines(result);
      FirstConnectLine(lines) == (if |echoed| < |lines| then Some(|echoed|) else None)
  {
    var lines := SplitLines(result);
    port', key', echoed := port, key, [];
    var i := 0;
    while i < |lines|
      invariant 0 <= i <= |lines| && echoed == lines[..i]
      invariant forall j :: 0 <= j < i ==> !IsConnectLine(lines[j])
      invariant port' == port && key' == key
    {
      var line := lines[i];
      if IsConnectLine(line) {
        port', key' := ConnectFieldsAsWritten(line, port, key).0, ConnectFieldsAsWritten(line, port, key).1;
        FirstConnectIsUnique(lines, i);
        return;
      }
      echoed := echoed + [line];
      i := i + 1;
    }
    FirstConnectIsUnique(lines, |lines|);
  }

  /** A position with no connect line before it and a connect line (or the end) at it is the first one. */
  lemma FirstConnectIsUnique(lines: seq<string>, i: nat)
    requires i <= |lines|
    requires forall j :: 0 <= j < i ==> !IsConnectLine(lines[j])
    requires i < |lines| ==> IsConnectLine(lines[i])
    ensures FirstConnectLine(lines) == (if i < |lines| then Some(i) else None)
  {
    var f := FirstConnectLine(lines);
    if f.Some? {
      assert !(f.value < i);
      assert f.value == i;
    }
  }

  /**
   * Port and key once the server's output has been read, when no key was
   * given: the parser's result on the first `MOSH CONNECT` line, or the
   * checked port and no key when there is none.
   */
  function ServerFields(serverOutput: string, port: string): (string, string)
  {
    var lines := SplitLines(serverOutput);
    match FirstConnectLine(lines)
    case Some(j) => ConnectFieldsAsWritten(lines[j], port, "")
    case None => (port, "")
  }

  // ------------------------------------------------------------- bootstrap

  /** The option loop finishes: no option is unrecognised. */
  predicate OptionsAccepted(opts: seq<Opt>)
  {
    forall k :: 0 <= k < |opts| ==> !opts[k].Unrecognized?
  }

  /**
   * `main` gets past the option loop, `--help`, `--version`, the
   * prediction-mode check and the port-request check.
   */
  predicate PassesChecks(opts: seq<Opt>, env: Option<string>)
  {
    && OptionsAccepted(opts)
    && !FoldOptions(opts).help && !FoldOptions(opts).version
    && ResolvePredictMode(FoldOptions(opts).predict, env).Ok?
    && CheckPortRequest(FoldOptions(opts).portRequest, "").Ok?
  }

  /**
   * `main` up to the start of the client: options, `--help`/`--version`,
   * prediction mode, port request, then, when no key was given, the
   * server's startup output, and finally the key/port gate. The remote
   * address is always the fixed local address, so its own gate never fires.
   */
  method Bootstrap(opts: seq<Opt>, env: Option<string>, serverOutput: string)
    returns (r: Result<Launch, Fatal>, echoed: seq<string>)
    ensures (exists k :: 0 <= k < |opts| && opts[k].Unrecognized?) ==> r == Err(Usage)
    ensures r.Ok? ==> r.value.predict in PredictModes && r.value.ip == LocalHost
    ensures r.Ok? ==> r.value.key != [] && r.value.port != [] && AllDigits(r.value.port)
    ensures r.Ok? ==> !FoldOptions(opts).help && !FoldOptions(opts).version
    ensures r.Ok? ==>
      r.value.predict == (if FoldOptions(opts).predict != [] then FoldOptions(opts).predict
                          else if env.Some? then env.value else "adaptive")
    ensures r.Ok? && FoldOptions(opts).key != [] ==>
      r.value.key == FoldOptions(opts).key && r.value.port == FoldOptions(opts).portRequest && echoed == []
    ensures r.Ok? && FoldOptions(opts).key == [] ==>
      |r.value.key| == KeyLength && r.value.key[KeyLength - 1] in KeyValidCharSet
    // each `die` before the server is contacted, with its message
    ensures OptionsAccepted(opts) && FoldOptions(opts).help ==> r == Err(Usage)
    ensures OptionsAccepted(opts) && !FoldOptions(opts).help && FoldOptions(opts).version ==> r == Err(VersionInfo)
    ensures OptionsAccepted(opts) && !FoldOptions(opts).help && !FoldOptions(opts).version ==>
      var mode := ResolvePredictMode(FoldOptions(opts).predict, env);
      var port := CheckPortRequest(FoldOptions(opts).portRequest, "");
      && (mode.Err? ==> r == Err(mode.error))
      && (mode.Ok? && port.Err? ==> r == Err(port.error))
    // the key/port gate, in both directions
    ensures PassesChecks(opts, env) ==>
      var mode := ResolvePredictMode(FoldOptions(opts).predict, env).value;
      var checked := CheckPortRequest(FoldOptions(opts).portRequest, "").value;
      var (port, key) := if FoldOptions(opts).key != [] then (checked, FoldOptions(opts).key)
                         else ServerFields(serverOutput, checked);
      && (r.Ok? <==> port != [] && key != [])
      && (r.Ok? ==> r.value == Launch(LocalHost, port, key, mode))
      && (r.Err? ==> r.error == NoStartupMessage)
    // the lines echoed from the server's output
    ensures !PassesChecks(opts, env) || FoldOptions(opts).key != [] ==> echoed == []
    ensures PassesChecks(opts, env) && FoldOptions(opts).key == [] ==>
      var lines := SplitLines(serverOutput);
      echoed == match FirstConnectLine(lines) case Some(j) => lines[..j] case None => lines
  {
    echoed := [];
    var parsed := ParseOptions(opts);
    if parsed.Err? {
      return Err(parsed.error), echoed;
    }
    var cfg := parsed.value;
    if cfg.help {
      return Err(Usage), echoed;
    }
    if cfg.version {
      return Err(VersionInfo), echoed;
    }

    var predict := ResolvePredictMode(cfg.predict, env);
    if predict.Err? {
      return Err(predict.error), echoed;
    }

    var port := CheckPortRequest(cfg.portRequest, "");
    if port.Err? {
      return Err(port.error), echoed;
    }
    var portValue := port.value;
    assert portValue == [] || AllDigits(portValue);

    var ip := LocalHost;
    var key := cfg.key;
    if |key| == 0 {
      var p, k, lines := ScanServerOutput(serverOutput, portValue, key);
      assert lines == SplitLines(serverOutput)[..|lines|];
      if p != portValue {
        var line := SplitLines(serverOutput)[|lines|];
        assert PortField(line, p);
      }
      portValue, key, echoed := p, k, lines;
    }

    assert |ip| > 0;
    if |key| == 0 || |portValue| == 0 {
      return Err(NoStartupMessage), echoed;
    }
    r := Ok(Launch(ip, portValue, key, predict.value));
  }
}
