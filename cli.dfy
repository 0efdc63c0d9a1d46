/** The command-line entry point: the configuration callback that picks a
    command's section out of the configuration file, and the SIGINT
    handler that stops the publisher at most once. */
module Cli {
  import opened Common

  const DefaultSection := "default"

  /** The configuration callback of `defineConfig`: the section named after
      the command, laid over the `default` section when there is one. The
      file is given already parsed, as its top-level sections. */
  function DefineConfig<V>(name: string, config: map<string, map<string, V>>): Result<map<string, V>, string>
  {
    if name !in config then Err("missing config for: " + name)
    else if DefaultSection in config then Ok(config[DefaultSection] + config[name])
    else Ok(config[name])
  }

  /** A missing section is an error naming it; otherwise the result has the
      keys of both sections, a key of the named section keeps its own value,
      and a key only in `default` keeps the default value. */
  lemma DefineConfigSpec<V>(name: string, config: map<string, map<string, V>>)
    ensures DefineConfig(name, config) == Err("missing config for: " + name) <==> name !in config
    ensures name in config && DefaultSection in config ==>
      var r := DefineConfig(name, config).value;
      && r.Keys == config[DefaultSection].Keys + config[name].Keys
      && (forall k :: k in config[name] ==> r[k] == config[name][k])
      && (forall k :: k in config[DefaultSection] && k !in config[name] ==> r[k] == config[DefaultSection][k])
    ensures name in config && DefaultSection !in config ==> DefineConfig(name, config) == Ok(config[name])
  {
  }

  /** Merging is idempotent: laying the merged section over `default` again
      changes nothing. */
  lemma DefineConfigIdempotent<V>(name: string, config: map<string, map<string, V>>)
    requires name in config && DefaultSection in config
    ensures var r := DefineConfig(name, config).value;
      DefineConfig(name, config[name := r]) == Ok(r)
  {
    var r := DefineConfig(name, config).value;
    if name == DefaultSection {
      assert config[DefaultSection] + config[name] == config[name];
    } else {
      assert config[DefaultSection] + r == r;
    }
  }

  /** What the SIGINT handler and the start-up guard have done so far. */
  datatype GuardState = GuardState(exiting: bool, stopCalls: nat, exitCode: Option<int>)

  const Idle := GuardState(false, 0, None)

  /** One SIGINT: the first one sets `exiting` before stopping the
      publisher, and a failing stop exits with code 1; later ones do
      nothing. */
  function Sigint(s: GuardState, stopFails: bool): GuardState {
    if s.exiting then s
    else GuardState(true, s.stopCalls + 1, if stopFails then Some(1) else s.exitCode)
  }

  /** A run of SIGINTs; `fails[i]` is whether the stop the i-th one would
      start fails. */
  function Sigints(s: GuardState, fails: seq<bool>): GuardState {
    if fails == [] then s else Sigint(Sigints(s, fails[..|fails| - 1]), fails[|fails| - 1])
  }

  lemma {:induction false} ExitingAbsorbs(s: GuardState, fails: seq<bool>)
    requires s.exiting
    ensures Sigints(s, fails) == s
  {
    if fails != [] {
      ExitingAbsorbs(s, fails[..|fails| - 1]);
    }
  }

  /** However many SIGINTs arrive, the publisher is stopped exactly once if
      any arrives, and the exit code is decided by that first stop alone. */
  lemma {:induction false} StopAtMostOnce(fails: seq<bool>)
    ensures Sigints(Idle, fails).stopCalls == if fails == [] then 0 else 1
    ensures Sigints(Idle, fails).exitCode == if fails != [] && fails[0] then Some(1) else None
  {
    if fails != [] {
      var first := Sigint(Idle, fails[0]);
      assert Sigints(Idle, fails[..1]) == first by {
        assert fails[..1][..0] == [];
      }
      SigintsSplit(Idle, fails[..1], fails[1..]);
      assert fails[..1] + fails[1..] == fails;
      ExitingAbsorbs(first, fails[1..]);
    }
  }

  /** A run of SIGINTs can be split into two consecutive runs. */
  lemma {:induction false} SigintsSplit(s: GuardState, a: seq<bool>, b: seq<bool>)
    ensures Sigints(s, a + b) == Sigints(Sigints(s, a), b)
  {
    if b != [] {
      var b' := b[..|b| - 1];
      SigintsSplit(s, a, b');
      assert (a + b)[..|a + b| - 1] == a + b';
    } else {
      assert a + b == a;
    }
  }

  /** The mutable state of the `publisher` command's handler. */
  class Shutdown {
    var exiting: bool
    var stopCalls: nat
    var exitCode: Option<int>

    function State(): GuardState
      reads this
    {
      GuardState(exiting, stopCalls, exitCode)
    }

    constructor ()
      ensures State() == Idle
    {
      exiting := false;
      stopCalls := 0;
      exitCode := None;
    }

    /** The SIGINT handler; `stopFails` is whether `publisher.stop()`
        rejects. */
    method OnSigint(stopFails: bool)
      modifies this
      ensures State() == Sigint(old(State()), stopFails)
    {
      if !exiting {
        exiting := true;
        stopCalls := stopCalls + 1;
        if stopFails {
          exitCode := Some(1);
        }
      }
    }

    /** Starting the publisher; a throwing `start` exits with code 1. */
    method Launch(startThrows: bool)
      modifies this`exitCode
      ensures exitCode == if startThrows then Some(1) else old(exitCode)
    {
      if startThrows {
        exitCode := Some(1);
      }
    }
  }
}
