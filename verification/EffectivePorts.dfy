/**
 The ports a server listens on: its Egg's, then the server's own extra ports, less those that collide.
 Everything that exposes a server takes its ports from here. A validator refuses colliding extras
 when a server is admitted; the list still drops them, because the Egg can change afterwards.
 */
module EffectivePorts {
  datatype Protocol = Unset | TCP | UDP | Other(name: string)

  datatype Port = Port(name: string, containerPort: int, protocol: Protocol)

  const SFTP_PORT := 2022
  const MAX_EXTRA_PORTS := 5

  function EggPortProtocol(p: Port): Protocol {
    if p.protocol == Unset then TCP else p.protocol
  }

  // Two ports cannot be told apart: by name, or by number and protocol.
  predicate Clash(a: Port, b: Port) {
    a.name == b.name || (a.containerPort == b.containerPort && a.protocol == b.protocol)
  }

  predicate ClashesWith(x: Port, ports: seq<Port>) {
    exists i :: 0 <= i < |ports| && Clash(x, ports[i])
  }

  function EggPorts(egg: seq<Port>): (out: seq<Port>)
    ensures |out| == |egg|
    ensures forall i :: 0 <= i < |egg| ==> out[i] == egg[i].(protocol := EggPortProtocol(egg[i]))
  {
    seq(|egg|, i requires 0 <= i < |egg| => egg[i].(protocol := EggPortProtocol(egg[i])))
  }

  // An extra port joins the list unless it clashes with a port that is already in it.
  function WithExtras(ports: seq<Port>, extras: seq<Port>): seq<Port> {
    if extras == [] then ports
    else
      var out, x := WithExtras(ports, extras[..|extras| - 1]), extras[|extras| - 1];
      if ClashesWith(x, out) then out else out + [x]
  }

  function Effective(egg: seq<Port>, extras: seq<Port>): seq<Port> {
    WithExtras(EggPorts(egg), extras)
  }

  function Names(ports: seq<Port>): set<string> {
    if ports == [] then {} else Names(ports[..|ports| - 1]) + {ports[|ports| - 1].name}
  }

  function Number(p: Port): (int, Protocol) {
    (p.containerPort, p.protocol)
  }

  function Numbers(ports: seq<Port>): set<(int, Protocol)> {
    if ports == [] then {} else Numbers(ports[..|ports| - 1]) + {Number(ports[|ports| - 1])}
  }

  lemma OneMore(ports: seq<Port>, x: Port)
    ensures Names(ports + [x]) == Names(ports) + {x.name}
    ensures Numbers(ports + [x]) == Numbers(ports) + {Number(x)}
  {
    assert (ports + [x])[..|ports|] == ports;
  }

  lemma {:induction false} ClashIsASharedNameOrNumber(x: Port, ports: seq<Port>)
    ensures ClashesWith(x, ports) <==> x.name in Names(ports) || Number(x) in Numbers(ports)
  {
    if ports != [] {
      var rest, last := ports[..|ports| - 1], ports[|ports| - 1];
      ClashIsASharedNameOrNumber(x, rest);
      if ClashesWith(x, rest) {
        var i :| 0 <= i < |rest| && Clash(x, rest[i]);
        assert Clash(x, ports[i]);
      }
      if Clash(x, last) {
        assert Clash(x, ports[|ports| - 1]);
      }
    }
  }

  method ComputeEffectivePorts(egg: seq<Port>, extras: seq<Port>) returns (out: seq<Port>)
    ensures out == Effective(egg, extras)
  {
    out := [];
    var names: set<string> := {};
    var numbers: set<(int, Protocol)> := {};
    for i := 0 to |egg|
      invariant out == EggPorts(egg)[..i]
      invariant names == Names(out) && numbers == Numbers(out)
    {
      var p := egg[i].(protocol := EggPortProtocol(egg[i]));
      OneMore(out, p);
      out := out + [p];
      names := names + {p.name};
      numbers := numbers + {(p.containerPort, p.protocol)};
    }
    assert out == EggPorts(egg);
    for i := 0 to |extras|
      invariant out == WithExtras(EggPorts(egg), extras[..i])
      invariant names == Names(out) && numbers == Numbers(out)
    {
      var x := extras[i];
      assert extras[..i + 1][..i] == extras[..i];
      ClashIsASharedNameOrNumber(x, out);
      if x.name in names || (x.containerPort, x.protocol) in numbers {
        continue;
      }
      OneMore(out, x);
      names := names + {x.name};
      numbers := numbers + {(x.containerPort, x.protocol)};
      out := out + [x];
    }
    assert extras[..|extras|] == extras;
  }

  // ---- what the list is like -------------------------------------------------------------------

  // The Egg's ports come first, untouched; an extra port never clashes with a port before it.
  lemma {:induction false} ExtrasNeverClash(ports: seq<Port>, extras: seq<Port>)
    ensures ports <= WithExtras(ports, extras)
    ensures
      var out := WithExtras(ports, extras);
      forall i, j :: 0 <= i < j < |out| && |ports| <= j ==> !Clash(out[j], out[i])
  {
    if extras != [] {
      ExtrasNeverClash(ports, extras[..|extras| - 1]);
    }
  }

  // What is in the list is an Egg port or an extra, and an extra is left out only for a clash.
  lemma {:induction false} NothingIsLostWithoutAClash(ports: seq<Port>, extras: seq<Port>, x: Port)
    ensures x in WithExtras(ports, extras) ==> x in ports || x in extras
    ensures x in extras ==> x in WithExtras(ports, extras) || ClashesWith(x, WithExtras(ports, extras))
    ensures x in ports ==> x in WithExtras(ports, extras)
  {
    if extras != [] {
      var rest, last := extras[..|extras| - 1], extras[|extras| - 1];
      NothingIsLostWithoutAClash(ports, rest, x);
      assert extras == rest + [last];
      var before, out := WithExtras(ports, rest), WithExtras(ports, extras);
      if ClashesWith(x, before) {
        var i :| 0 <= i < |before| && Clash(x, before[i]);
        assert Clash(x, out[i]);
      }
    }
  }

  // Distinct names in the Egg make distinct names in the list, so a name stands for one port.
  lemma NamesAreDistinct(egg: seq<Port>, extras: seq<Port>)
    requires forall i, j :: 0 <= i < j < |egg| ==> egg[i].name != egg[j].name
    ensures
      var out := Effective(egg, extras);
      forall i, j :: 0 <= i < j < |out| ==> out[i].name != out[j].name
  {
    ExtrasNeverClash(EggPorts(egg), extras);
    var ports, out := EggPorts(egg), Effective(egg, extras);
    forall i, j | 0 <= i < j < |out| ensures out[i].name != out[j].name {
      if j < |ports| {
        assert out[i] == ports[i] && out[j] == ports[j];
      } else {
        assert !Clash(out[j], out[i]);
      }
    }
  }

  // ---- the validator ---------------------------------------------------------------------------

  datatype Problem = TooMany | BadName(name: string) | BadNumber(name: string) | BadProtocol(name: string)
                   | NameTaken(name: string) | NumberTaken(name: string)

  predicate LowerOrDigit(c: char) {
    'a' <= c <= 'z' || '0' <= c <= '9'
  }

  // ^[a-z]([a-z0-9-]{0,13}[a-z0-9])?$
  predicate IsServiceName(s: string) {
    && 1 <= |s| <= 15
    && 'a' <= s[0] <= 'z'
    && LowerOrDigit(s[|s| - 1])
    && forall i :: 0 <= i < |s| ==> LowerOrDigit(s[i]) || s[i] == '-'
  }

  predicate WellFormed(x: Port) {
    IsServiceName(x.name) && 1024 <= x.containerPort <= 65535 && (x.protocol == TCP || x.protocol == UDP)
  }

  // The SFTP port is taken on every server.
  function TakenNumbers(ports: seq<Port>): set<(int, Protocol)> {
    if ports == [] then {(SFTP_PORT, TCP)} else TakenNumbers(ports[..|ports| - 1]) + {Number(ports[|ports| - 1])}
  }

  lemma {:induction false} OneMoreTaken(ports: seq<Port>, x: Port)
    ensures TakenNumbers(ports + [x]) == TakenNumbers(ports) + {Number(x)}
  {
    assert (ports + [x])[..|ports|] == ports;
  }

  lemma {:induction false} TakenIsSftpOrNumber(ports: seq<Port>, n: (int, Protocol))
    ensures n in TakenNumbers(ports) <==> n == (SFTP_PORT, TCP) || n in Numbers(ports)
  {
    if ports != [] {
      TakenIsSftpOrNumber(ports[..|ports| - 1], n);
    }
  }

  // Problem p is true of extra port x, given the names and numbers taken so far.
  predicate Wrong(x: Port, names: set<string>, numbers: set<(int, Protocol)>, p: Problem) {
    match p
    case TooMany => false
    case BadName(n) => n == x.name && !IsServiceName(x.name)
    case BadNumber(n) => n == x.name && !(1024 <= x.containerPort <= 65535)
    case BadProtocol(n) => n == x.name && x.protocol != TCP && x.protocol != UDP
    case NameTaken(n) => n == x.name && x.name in names
    case NumberTaken(n) => n == x.name && Number(x) in numbers
  }

  method CheckExtraPort(problems: seq<Problem>, x: Port, names: set<string>, numbers: set<(int, Protocol)>)
    returns (more: seq<Problem>)
    ensures forall p :: p in more <==> p in problems || Wrong(x, names, numbers, p)
    ensures more == [] <==> problems == [] && WellFormed(x) && x.name !in names && Number(x) !in numbers
  {
    more := problems;
    if !IsServiceName(x.name) {
      more := more + [BadName(x.name)];
    }
    if x.containerPort < 1024 || x.containerPort > 65535 {
      more := more + [BadNumber(x.name)];
    }
    if x.protocol != TCP && x.protocol != UDP {
      more := more + [BadProtocol(x.name)];
    }
    if x.name in names {
      more := more + [NameTaken(x.name)];
    }
    if (x.containerPort, x.protocol) in numbers {
      more := more + [NumberTaken(x.name)];
    }
  }

  method TakenByEgg(egg: seq<Port>) returns (names: set<string>, numbers: set<(int, Protocol)>)
    ensures names == Names(EggPorts(egg)) && numbers == TakenNumbers(EggPorts(egg))
  {
    names, numbers := {}, {(SFTP_PORT, TCP)};
    ghost var ports := EggPorts(egg);
    for i := 0 to |egg|
      invariant names == Names(ports[..i]) && numbers == TakenNumbers(ports[..i])
    {
      OneMore(ports[..i], ports[i]);
      OneMoreTaken(ports[..i], ports[i]);
      assert ports[..i + 1] == ports[..i] + [ports[i]];
      names := names + {egg[i].name};
      numbers := numbers + {(egg[i].containerPort, EggPortProtocol(egg[i]))};
    }
    assert ports[..|egg|] == ports;
  }

  // Problem p is true of the i-th extra port, next to the Egg's ports and the extras before it.
  ghost predicate WrongAt(egg: seq<Port>, extras: seq<Port>, i: nat, p: Problem)
    requires i < |extras|
  {
    var before := EggPorts(egg) + extras[..i];
    Wrong(extras[i], Names(before), TakenNumbers(before), p)
  }

  // The first n extras are well formed and clash with nothing: not with the Egg, not with another
  // extra, and not with the number of the SFTP port.
  ghost predicate Admissible(egg: seq<Port>, extras: seq<Port>, n: nat)
    requires n <= |extras|
  {
    forall i :: 0 <= i < n ==>
      && WellFormed(extras[i]) && Number(extras[i]) != (SFTP_PORT, TCP)
      && !ClashesWith(extras[i], EggPorts(egg) + extras[..i])
  }

  // The problems of the first n extras are found: none exactly when there are few enough extras and
  // those are admissible, and otherwise everything that is wrong and nothing else.
  ghost predicate Found(egg: seq<Port>, extras: seq<Port>, n: nat, problems: seq<Problem>)
    requires n <= |extras|
  {
    && (problems == [] <==> |extras| <= MAX_EXTRA_PORTS && Admissible(egg, extras, n))
    && (forall p :: p in problems <==>
          (p == TooMany && |extras| > MAX_EXTRA_PORTS) || exists i :: 0 <= i < n && WrongAt(egg, extras, i, p))
  }

  lemma OneMoreFound(egg: seq<Port>, extras: seq<Port>, n: nat, problems: seq<Problem>, more: seq<Problem>)
    requires n < |extras| && Found(egg, extras, n, problems)
    requires
      var x, before := extras[n], EggPorts(egg) + extras[..n];
      && (forall p :: p in more <==> p in problems || Wrong(x, Names(before), TakenNumbers(before), p))
      && (more == [] <==>
          problems == [] && WellFormed(x) && x.name !in Names(before) && Number(x) !in TakenNumbers(before))
    ensures Found(egg, extras, n + 1, more)
  {
    var x, before := extras[n], EggPorts(egg) + extras[..n];
    TakenIsSftpOrNumber(before, Number(x));
    ClashIsASharedNameOrNumber(x, before);
    assert forall p :: WrongAt(egg, extras, n, p) <==> Wrong(x, Names(before), TakenNumbers(before), p);
  }

  lemma OneMoreExtra(ports: seq<Port>, extras: seq<Port>, n: nat)
    requires n < |extras|
    ensures Names(ports + extras[..n + 1]) == Names(ports + extras[..n]) + {extras[n].name}
    ensures TakenNumbers(ports + extras[..n + 1]) == TakenNumbers(ports + extras[..n]) + {Number(extras[n])}
  {
    OneMore(ports + extras[..n], extras[n]);
    OneMoreTaken(ports + extras[..n], extras[n]);
    assert ports + extras[..n + 1] == ports + extras[..n] + [extras[n]];
  }

  method ValidateExtraPorts(egg: seq<Port>, extras: seq<Port>) returns (problems: seq<Problem>)
    ensures Found(egg, extras, |extras|, problems)
  {
    problems := [];
    if |extras| > MAX_EXTRA_PORTS {
      problems := problems + [TooMany];
    }
    ghost var ports := EggPorts(egg);
    var names, numbers := TakenByEgg(egg);
    assert ports == ports + extras[..0];
    for i := 0 to |extras|
      invariant Found(egg, extras, i, problems)
      invariant names == Names(ports + extras[..i]) && numbers == TakenNumbers(ports + extras[..i])
    {
      var x := extras[i];
      var more := CheckExtraPort(problems, x, names, numbers);
      OneMoreFound(egg, extras, i, problems, more);
      OneMoreExtra(ports, extras, i);
      problems := more;
      names := names + {x.name};
      numbers := numbers + {(x.containerPort, x.protocol)};
    }
  }

  ghost predicate NoClash(ports: seq<Port>, extras: seq<Port>) {
    forall i :: 0 <= i < |extras| ==> !ClashesWith(extras[i], ports + extras[..i])
  }

  // Every extra is listed, in order, after the Egg's ports exactly when none clashes with those before
  // it; one clash makes the list shorter.
  lemma {:induction false} AllListedExactlyWithoutAClash(ports: seq<Port>, extras: seq<Port>)
    ensures |WithExtras(ports, extras)| <= |ports| + |extras|
    ensures |WithExtras(ports, extras)| == |ports| + |extras| <==> NoClash(ports, extras)
    ensures WithExtras(ports, extras) == ports + extras <==> NoClash(ports, extras)
  {
    if extras == [] {
      assert ports + extras == ports;
    } else {
      var rest := extras[..|extras| - 1];
      AllListedExactlyWithoutAClash(ports, rest);
      assert forall i :: 0 <= i < |rest| ==> rest[i] == extras[i] && rest[..i] == extras[..i];
      assert ports + extras == ports + rest + [extras[|rest|]];
    }
  }

  // The validator and the list agree: nothing it accepts is dropped.
  lemma AcceptedExtrasAreAllListed(egg: seq<Port>, extras: seq<Port>, problems: seq<Problem>)
    requires Found(egg, extras, |extras|, problems) && problems == []
    ensures Effective(egg, extras) == EggPorts(egg) + extras
  {
    AllListedExactlyWithoutAClash(EggPorts(egg), extras);
  }
}
