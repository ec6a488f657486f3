/** The commands that turn Docker calls into messages
    (internal/tui/commands.go): the status text shown for each listed
    container, and the messages reporting a start, stop or restart. The
    Docker calls are parameters: what ListContainers returned, and the error
    the start, stop or restart call returned. */
module TuiCommands {
  import opened Types
  import opened Helpers
  import opened TuiModel

  /** The status text of one container: its Docker status cut to 30
      characters when running, "exited" when exited, its state otherwise. */
  function DisplayStatusFor(c: Container): (r: string)
    ensures c.state == "running" ==> |r| <= 30
    ensures c.state != "running" && c.state != "exited" ==> r == c.state
  {
    if c.state == "running" then Truncate(c.status, 30)
    else if c.state == "exited" then "exited"
    else c.state
  }

  /** The list with every container's status text filled in. */
  function WithDisplayStatus(cs: seq<Container>): seq<Container>
  {
    seq(|cs|, i requires 0 <= i < |cs| => cs[i].(displayStatus := DisplayStatusFor(cs[i])))
  }

  /** The status text of a running container never exceeds 30 characters
      and is its status when that fits; an exited one reads "exited"; any
      other shows its state. */
  lemma DisplayStatusRules(c: Container)
    ensures c.state == "running" ==> |DisplayStatusFor(c)| <= 30
    ensures c.state == "running" && |c.status| <= 30 ==> DisplayStatusFor(c) == c.status
    ensures c.state == "running" && |c.status| > 30 ==>
              DisplayStatusFor(c) == c.status[..27] + "..."
    ensures c.state == "exited" ==> DisplayStatusFor(c) == "exited"
    ensures c.state != "running" && c.state != "exited" ==> DisplayStatusFor(c) == c.state
  {
  }

  /** Filling in the status text keeps the count, the order and every
      other field of the containers. */
  lemma OnlyDisplayStatusChanges(cs: seq<Container>)
    ensures |WithDisplayStatus(cs)| == |cs|
    ensures forall i | 0 <= i < |cs| ::
              WithDisplayStatus(cs)[i].(displayStatus := cs[i].displayStatus) == cs[i]
    ensures forall i | 0 <= i < |cs| :: WithDisplayStatus(cs)[i].displayStatus == DisplayStatusFor(cs[i])
  {
  }

  /** The loop of fetchContainers, writing each status text in place. */
  method FillDisplayStatus(a: array<Container>)
    modifies a
    ensures a[..] == WithDisplayStatus(old(a[..]))
  {
    var i := 0;
    while i < a.Length
      invariant 0 <= i <= a.Length
      invariant a[..i] == WithDisplayStatus(old(a[..]))[..i]
      invariant forall k | i <= k < a.Length :: a[k] == old(a[k])
    {
      var c := a[i];
      if c.state == "running" {
        a[i] := c.(displayStatus := Truncate(c.status, 30));
      } else if c.state == "exited" {
        a[i] := c.(displayStatus := "exited");
      } else {
        a[i] := c.(displayStatus := c.state);
      }
      assert a[..i + 1] == a[..i] + [a[i]];
      i := i + 1;
    }
    assert a[..] == a[..i];
  }

  /** fetchContainers' command, given what ListContainers returned: the
      containers with their status text, next to the call's error. */
  method FetchContainers(listed: seq<Container>, err: Option<string>) returns (msg: Msg)
    ensures msg == ContainersMsg(WithDisplayStatus(listed), err)
  {
    var a := new Container[|listed|](i requires 0 <= i < |listed| => listed[i]);
    assert a[..] == listed;
    FillDisplayStatus(a);
    msg := ContainersMsg(a[..], err);
  }

  function Verb(a: Action): string
  {
    match a
    case Start => "Started"
    case Stop => "Stopped"
    case Restart => "Restarted"
  }

  /** The message a start, stop or restart command delivers: the verb and
      the container's name, next to the Docker call's error. */
  function ActionResult(a: Action, name: string, callErr: Option<string>): (m: Msg)
    ensures m.ActionMsg? && m.err == callErr
  {
    ActionMsg(Verb(a) + ": " + name, callErr)
  }

  /** The message text tells which action ran on which container: two
      different actions, or two different names, never give the same text. */
  lemma {:induction false} ActionResultInjective(a: Action, n: string, b: Action, m: string, e: Option<string>, f: Option<string>)
    requires ActionResult(a, n, e).message == ActionResult(b, m, f).message
    ensures a == b && n == m
  {
    var s := ActionResult(a, n, e).message;
    assert s == Verb(a) + ": " + n;
    assert s == Verb(b) + ": " + m;
    assert s[0] == Verb(a)[0] && s[0] == Verb(b)[0];
    assert s[2] == Verb(a)[2] && s[2] == Verb(b)[2];
    assert s[|Verb(a)| + 2..] == n;
    assert s[|Verb(b)| + 2..] == m;
  }
}
