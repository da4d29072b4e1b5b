/**
 * The agent's command-line option record and the argp callback that fills it
 * in, one recognised option key at a time.
 */
module AgentOptions {
  import opened CStrings

  /** An `unsigned char` field. */
  type Byte = x: int | 0 <= x < 256

  /** Option keys: the long-only options' numeric keys and the short options' characters. */
  const OPT_SECCOMP: int := 1
  const OPT_NOAUTOLOAD: int := 2
  const OPT_NO_WEBSERVER: int := 3
  const OPT_PW_STORE: int := 4
  const OPT_GROUP: int := 5
  const OPT_NO_SCHEME: int := 6
  const KEY_KILL: int := 'k' as int
  const KEY_DEBUG: int := 'g' as int
  const KEY_CONSOLE: int := 'd' as int
  const KEY_CONFIRM: int := 'c' as int
  const KEY_LIFETIME: int := 't' as int
  const KEY_HELP: int := 'h' as int

  /** argp's key for a non-option argument, and its "key not handled" code (E2BIG). */
  const ARGP_KEY_ARG: int := 0
  const ARGP_ERR_UNKNOWN: int := 7

  /** The group used by `--with-group` when no group name is given. */
  const DEFAULT_GROUP: string := "oidc-agent"

  /** `struct lifetimeArg`. */
  datatype LifetimeArg = LifetimeArg(lifetime: int, argProvided: Byte)

  /** The value of a `struct arguments` record. */
  datatype Settings = Settings(
    killFlag: Byte,
    debug: Byte,
    console: Byte,
    seccomp: Byte,
    noAutoload: Byte,
    confirm: Byte,
    noWebserver: Byte,
    noScheme: Byte,
    lifetime: int,
    pwLifetime: LifetimeArg,
    group: CString)

  /** The string-to-number conversions `strToInt` and `strToULong`, whose bodies are not modelled. */
  datatype Converters = Converters(strToInt: string -> int, strToULong: CString -> nat)

  /** One call of the callback: an option key and its argument (NULL when absent). */
  datatype Opt = Opt(key: int, arg: CString)

  /** The keys of the eight on/off options. */
  predicate IsFlagKey(key: int) {
    key == KEY_KILL || key == KEY_DEBUG || key == KEY_CONSOLE || key == KEY_CONFIRM
    || key == OPT_SECCOMP || key == OPT_NOAUTOLOAD || key == OPT_NO_WEBSERVER || key == OPT_NO_SCHEME
  }

  /**
   * What argp guarantees the callback: `-t` always comes with an argument.
   * The help key and the non-option-argument key, which print and end the
   * program, are not modelled.
   */
  predicate Admissible(o: Opt) {
    o.key != KEY_HELP && o.key != ARGP_KEY_ARG && (o.key == KEY_LIFETIME ==> o.arg.Some?)
  }

  /** `isdigit(*arg)`: the first character is a decimal digit (the terminating NUL of "" is not). */
  predicate StartsWithDigit(s: string) {
    s != "" && '0' <= s[0] <= '9'
  }

  /** The field a flag key controls. */
  function Flag(s: Settings, key: int): Byte
    requires IsFlagKey(key)
  {
    if key == KEY_KILL then s.killFlag
    else if key == KEY_DEBUG then s.debug
    else if key == KEY_CONSOLE then s.console
    else if key == KEY_CONFIRM then s.confirm
    else if key == OPT_SECCOMP then s.seccomp
    else if key == OPT_NOAUTOLOAD then s.noAutoload
    else if key == OPT_NO_WEBSERVER then s.noWebserver
    else s.noScheme
  }

  /** `a` and `b` agree on every field except possibly the one flag `key` controls. */
  ghost predicate AgreeOutside(a: Settings, b: Settings, key: int)
    requires IsFlagKey(key)
  {
    (forall k :: IsFlagKey(k) && k != key ==> Flag(a, k) == Flag(b, k))
    && a.lifetime == b.lifetime && a.pwLifetime == b.pwLifetime && a.group == b.group
  }

  /**
   * `parse_opt` on the value of the record: the new record and the returned
   * code. A flag key sets its own field to 1 and nothing else; `--with-group`
   * sets only the group, to the argument or to "oidc-agent"; `-t` sets only
   * the lifetime and only when its argument starts with a digit; `--pw-store`
   * sets only the password lifetime and marks it given; every other key is
   * refused with `ARGP_ERR_UNKNOWN` and changes nothing.
   */
  function ApplyOpt(s: Settings, o: Opt, conv: Converters): (r: (Settings, int))
    requires Admissible(o)
    ensures r.1 == 0 || r.1 == ARGP_ERR_UNKNOWN
    ensures r.1 == ARGP_ERR_UNKNOWN ==> r.0 == s
    ensures IsFlagKey(o.key) ==> r.1 == 0 && Flag(r.0, o.key) == 1 && AgreeOutside(s, r.0, o.key)
    ensures o.key == OPT_GROUP ==>
      r.1 == 0 && r.0 == s.(group := if o.arg.Some? then o.arg else Some(DEFAULT_GROUP))
    ensures o.key == KEY_LIFETIME ==>
      (r.1 == 0 <==> StartsWithDigit(o.arg.value))
      && (r.1 == 0 ==> r.0 == s.(lifetime := conv.strToInt(o.arg.value)))
    ensures o.key == OPT_PW_STORE ==>
      r.1 == 0 && r.0 == s.(pwLifetime := LifetimeArg(conv.strToULong(o.arg), 1))
    ensures !IsFlagKey(o.key) && o.key != OPT_GROUP && o.key != KEY_LIFETIME && o.key != OPT_PW_STORE ==>
      r == (s, ARGP_ERR_UNKNOWN)
  {
    var key := o.key;
    if key == KEY_KILL then (s.(killFlag := 1), 0)
    else if key == KEY_DEBUG then (s.(debug := 1), 0)
    else if key == KEY_CONSOLE then (s.(console := 1), 0)
    else if key == KEY_CONFIRM then (s.(confirm := 1), 0)
    else if key == OPT_SECCOMP then (s.(seccomp := 1), 0)
    else if key == OPT_NOAUTOLOAD then (s.(noAutoload := 1), 0)
    else if key == OPT_NO_WEBSERVER then (s.(noWebserver := 1), 0)
    else if key == OPT_NO_SCHEME then (s.(noScheme := 1), 0)
    else if key == OPT_GROUP then (s.(group := if o.arg.Some? then o.arg else Some(DEFAULT_GROUP)), 0)
    else if key == KEY_LIFETIME then
      if !StartsWithDigit(o.arg.value) then (s, ARGP_ERR_UNKNOWN)
      else (s.(lifetime := conv.strToInt(o.arg.value)), 0)
    else if key == OPT_PW_STORE then (s.(pwLifetime := LifetimeArg(conv.strToULong(o.arg), 1)), 0)
    else (s, ARGP_ERR_UNKNOWN)
  }

  /** The keys of the `options` table other than the hidden help key. */
  predicate IsTableKey(key: int) {
    IsFlagKey(key) || key == KEY_LIFETIME || key == OPT_PW_STORE || key == OPT_GROUP
  }

  /** An option argp hands the callback for a command-line option of the `options` table. */
  function CommandLineOpt(o: Opt): (ok: bool)
    ensures ok ==> Admissible(o)
  {
    IsTableKey(o.key) && (o.key == KEY_LIFETIME ==> o.arg.Some?)
  }

  /**
   * argp driving the callback over the table options of one command line, in
   * order: parsing stops at the first call that does not return 0.
   */
  function ParseAll(s: Settings, opts: seq<Opt>, conv: Converters): (r: (Settings, int))
    requires forall i :: 0 <= i < |opts| ==> CommandLineOpt(opts[i])
    ensures r.1 == 0 || r.1 == ARGP_ERR_UNKNOWN
    decreases |opts|
  {
    if |opts| == 0 then (s, 0)
    else
      assert CommandLineOpt(opts[0]);
      var step := ApplyOpt(s, opts[0], conv);
      if step.1 != 0 then step else ParseAll(step.0, opts[1..], conv)
  }

  /** The record left by applying the callback to each option in turn, from `s`. */
  function FoldOpts(s: Settings, opts: seq<Opt>, conv: Converters): Settings
    requires forall i :: 0 <= i < |opts| ==> CommandLineOpt(opts[i])
    decreases |opts|
  {
    if |opts| == 0 then s
    else
      assert CommandLineOpt(opts[0]);
      FoldOpts(ApplyOpt(s, opts[0], conv).0, opts[1..], conv)
  }

  /** The callback accepts option `i` in the record the options before it leave. */
  predicate AcceptedAt(s: Settings, opts: seq<Opt>, conv: Converters, i: int)
    requires forall j :: 0 <= j < |opts| ==> CommandLineOpt(opts[j])
    requires 0 <= i < |opts|
  {
    assert CommandLineOpt(opts[i]);
    ApplyOpt(FoldOpts(s, opts[..i], conv), opts[i], conv).1 == 0
  }

  /** Acceptance of a later option, seen from the record after the first one. */
  lemma AcceptedAtShift(s: Settings, opts: seq<Opt>, conv: Converters, i: int)
    requires forall j :: 0 <= j < |opts| ==> CommandLineOpt(opts[j])
    requires 1 <= i < |opts|
    ensures AcceptedAt(s, opts, conv, i) == AcceptedAt(ApplyOpt(s, opts[0], conv).0, opts[1..], conv, i - 1)
    ensures FoldOpts(s, opts[..i], conv) == FoldOpts(ApplyOpt(s, opts[0], conv).0, opts[1..][..i - 1], conv)
  {
    assert opts[..i][0] == opts[0];
    assert opts[..i][1..] == opts[1..][..i - 1];
    assert opts[1..][i - 1] == opts[i];
  }

  /**
   * A command line parses successfully exactly when every option is accepted
   * in the record the options before it leave, and the resulting record is
   * then the callback applied to each option in turn.
   */
  lemma {:induction false} ParseAllSucceeds(s: Settings, opts: seq<Opt>, conv: Converters)
    requires forall i :: 0 <= i < |opts| ==> CommandLineOpt(opts[i])
    ensures ParseAll(s, opts, conv).1 == 0 <==> forall i :: 0 <= i < |opts| ==> AcceptedAt(s, opts, conv, i)
    ensures ParseAll(s, opts, conv).1 == 0 ==> ParseAll(s, opts, conv).0 == FoldOpts(s, opts, conv)
    decreases |opts|
  {
    if opts != [] {
      var step := ApplyOpt(s, opts[0], conv);
      var rest := opts[1..];
      assert opts[..0] == [];
      assert AcceptedAt(s, opts, conv, 0) == (step.1 == 0);
      ParseAllSucceeds(step.0, rest, conv);
      forall i | 1 <= i < |opts|
        ensures AcceptedAt(s, opts, conv, i) == AcceptedAt(step.0, rest, conv, i - 1)
      {
        AcceptedAtShift(s, opts, conv, i);
      }
      if step.1 == 0 && ParseAll(step.0, rest, conv).1 != 0 {
        var k :| 0 <= k < |rest| && !AcceptedAt(step.0, rest, conv, k);
        assert !AcceptedAt(s, opts, conv, k + 1);
      }
    }
  }

  /**
   * When option `i` is the first one the callback refuses, parsing fails
   * with `ARGP_ERR_UNKNOWN` and the record is the one the options before `i`
   * leave: the refused option and everything after it have no effect.
   */
  lemma {:induction false} ParseAllStopsAtFirstRejection(s: Settings, opts: seq<Opt>, conv: Converters, i: int)
    requires forall j :: 0 <= j < |opts| ==> CommandLineOpt(opts[j])
    requires 0 <= i < |opts|
    requires forall j :: 0 <= j < i ==> AcceptedAt(s, opts, conv, j)
    requires !AcceptedAt(s, opts, conv, i)
    ensures ParseAll(s, opts, conv) == (FoldOpts(s, opts[..i], conv), ARGP_ERR_UNKNOWN)
    decreases i
  {
    var step := ApplyOpt(s, opts[0], conv);
    assert opts[..0] == [];
    if i > 0 {
      assert AcceptedAt(s, opts, conv, 0);
      var rest := opts[1..];
      forall j | 0 <= j < i - 1 ensures AcceptedAt(step.0, rest, conv, j) {
        AcceptedAtShift(s, opts, conv, j + 1);
      }
      AcceptedAtShift(s, opts, conv, i);
      ParseAllStopsAtFirstRejection(step.0, rest, conv, i - 1);
    }
  }

  /** The keys occurring in a sequence of options. */
  function Keys(opts: seq<Opt>): set<int> {
    set i | 0 <= i < |opts| :: opts[i].key
  }

  predicate FlagsOnly(opts: seq<Opt>) {
    forall i :: 0 <= i < |opts| ==> IsFlagKey(opts[i].key)
  }

  /**
   * After any sequence of flag options, parsing has succeeded, exactly the
   * flags whose keys occurred are 1 (the others keep their value), and the
   * lifetimes and the group are untouched.
   */
  lemma {:induction false} FlagOptionsAccumulate(s: Settings, opts: seq<Opt>, conv: Converters)
    requires FlagsOnly(opts)
    ensures forall i :: 0 <= i < |opts| ==> CommandLineOpt(opts[i])
    ensures var r := ParseAll(s, opts, conv);
      r.1 == 0
      && (forall k :: IsFlagKey(k) ==> Flag(r.0, k) == if k in Keys(opts) then 1 else Flag(s, k))
      && r.0.lifetime == s.lifetime && r.0.pwLifetime == s.pwLifetime && r.0.group == s.group
    decreases |opts|
  {
    if opts != [] {
      var step := ApplyOpt(s, opts[0], conv);
      var rest := opts[1..];
      assert FlagsOnly(rest) by {
        forall i | 0 <= i < |rest| ensures IsFlagKey(rest[i].key) {
          assert rest[i] == opts[i + 1];
        }
      }
      FlagOptionsAccumulate(step.0, rest, conv);
      assert Keys(opts) == {opts[0].key} + Keys(rest) by {
        forall k | k in Keys(opts) ensures k in {opts[0].key} + Keys(rest) {
          var i :| 0 <= i < |opts| && opts[i].key == k;
          if i > 0 { assert rest[i - 1].key == k; }
        }
        forall k | k in Keys(rest) ensures k in Keys(opts) {
          var i :| 0 <= i < |rest| && rest[i].key == k;
          assert opts[i + 1].key == k;
        }
      }
    }
  }

  /** Two sequences of flag options with the same keys produce the same record. */
  lemma {:induction false} FlagOrderIrrelevant(s: Settings, opts1: seq<Opt>, opts2: seq<Opt>, conv: Converters)
    requires FlagsOnly(opts1) && FlagsOnly(opts2)
    requires Keys(opts1) == Keys(opts2)
    ensures forall i :: 0 <= i < |opts1| ==> CommandLineOpt(opts1[i])
    ensures forall i :: 0 <= i < |opts2| ==> CommandLineOpt(opts2[i])
    ensures ParseAll(s, opts1, conv) == ParseAll(s, opts2, conv)
  {
    FlagOptionsAccumulate(s, opts1, conv);
    FlagOptionsAccumulate(s, opts2, conv);
    var r1, r2 := ParseAll(s, opts1, conv).0, ParseAll(s, opts2, conv).0;
    assert Flag(r1, KEY_KILL) == Flag(r2, KEY_KILL);
    assert Flag(r1, KEY_DEBUG) == Flag(r2, KEY_DEBUG);
    assert Flag(r1, KEY_CONSOLE) == Flag(r2, KEY_CONSOLE);
    assert Flag(r1, KEY_CONFIRM) == Flag(r2, KEY_CONFIRM);
    assert Flag(r1, OPT_SECCOMP) == Flag(r2, OPT_SECCOMP);
    assert Flag(r1, OPT_NOAUTOLOAD) == Flag(r2, OPT_NOAUTOLOAD);
    assert Flag(r1, OPT_NO_WEBSERVER) == Flag(r2, OPT_NO_WEBSERVER);
    assert Flag(r1, OPT_NO_SCHEME) == Flag(r2, OPT_NO_SCHEME);
  }

  /** Giving the same flag options a second time changes nothing (idempotence). */
  lemma FlagRepetitionIrrelevant(s: Settings, opts: seq<Opt>, conv: Converters)
    requires FlagsOnly(opts)
    ensures forall i :: 0 <= i < |opts| ==> CommandLineOpt(opts[i])
    ensures forall i :: 0 <= i < |opts + opts| ==> CommandLineOpt((opts + opts)[i])
    ensures ParseAll(s, opts + opts, conv) == ParseAll(s, opts, conv)
  {
    var twice := opts + opts;
    assert FlagsOnly(twice) by {
      forall i | 0 <= i < |twice| ensures IsFlagKey(twice[i].key) {
        if i >= |opts| { assert twice[i] == opts[i - |opts|]; }
      }
    }
    assert Keys(twice) == Keys(opts) by {
      forall k | k in Keys(twice) ensures k in Keys(opts) {
        var i :| 0 <= i < |twice| && twice[i].key == k;
        if i >= |opts| { assert opts[i - |opts|].key == k; } else { assert opts[i].key == k; }
      }
      forall k | k in Keys(opts) ensures k in Keys(twice) {
        var i :| 0 <= i < |opts| && opts[i].key == k;
        assert twice[i].key == k;
      }
    }
    FlagOrderIrrelevant(s, twice, opts, conv);
  }

  /** `struct arguments`, filled in place by `initArguments` and by the callback. */
  class Arguments {
    var killFlag: Byte
    var debug: Byte
    var console: Byte
    var seccomp: Byte
    var noAutoload: Byte
    var confirm: Byte
    var noWebserver: Byte
    var noScheme: Byte
    var lifetime: int
    var pwLifetime: LifetimeArg
    var group: CString

    /** A record not yet filled in, as the agent declares it before calling `initArguments`. */
    constructor ()
    {
    }

    /** The record's current value. */
    function Value(): Settings
      reads this
    {
      Settings(killFlag, debug, console, seccomp, noAutoload, confirm, noWebserver, noScheme,
               lifetime, pwLifetime, group)
    }

    /** `initArguments`: every flag, both lifetimes and the "given" mark 0, no group. */
    method InitArguments()
      modifies this
      ensures killFlag == 0 && debug == 0 && console == 0 && seccomp == 0
      ensures noAutoload == 0 && confirm == 0 && noWebserver == 0 && noScheme == 0
      ensures lifetime == 0 && pwLifetime == LifetimeArg(0, 0) && group == None
    {
      killFlag := 0;
      console := 0;
      debug := 0;
      lifetime := 0;
      seccomp := 0;
      noAutoload := 0;
      confirm := 0;
      noWebserver := 0;
      pwLifetime := pwLifetime.(lifetime := 0);
      pwLifetime := pwLifetime.(argProvided := 0);
      group := None;
      noScheme := 0;
    }

    /** `parse_opt`: updates the record in place as `ApplyOpt` describes and returns its code. */
    method ParseOpt(key: int, arg: CString, conv: Converters) returns (code: int)
      requires Admissible(Opt(key, arg))
      modifies this
      ensures (Value(), code) == ApplyOpt(old(Value()), Opt(key, arg), conv)
    {
      if key == KEY_KILL { killFlag := 1; }
      else if key == KEY_DEBUG { debug := 1; }
      else if key == KEY_CONSOLE { console := 1; }
      else if key == KEY_CONFIRM { confirm := 1; }
      else if key == OPT_SECCOMP { seccomp := 1; }
      else if key == OPT_NOAUTOLOAD { noAutoload := 1; }
      else if key == OPT_NO_WEBSERVER { noWebserver := 1; }
      else if key == OPT_NO_SCHEME { noScheme := 1; }
      else if key == OPT_GROUP { group := if arg.Some? then arg else Some(DEFAULT_GROUP); }
      else if key == KEY_LIFETIME {
        if !StartsWithDigit(arg.value) {
          return ARGP_ERR_UNKNOWN;
        }
        lifetime := conv.strToInt(arg.value);
      }
      else if key == OPT_PW_STORE {
        pwLifetime := pwLifetime.(argProvided := 1);
        pwLifetime := pwLifetime.(lifetime := conv.strToULong(arg));
      }
      else {
        return ARGP_ERR_UNKNOWN;
      }
      return 0;
    }
  }
}
