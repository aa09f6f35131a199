/** The messages of the wire protocol, after JSON decoding. */
module Protocol {

  type Name = string

  datatype Option<+T> = None | Some(value: T)

  /** A JSON value, with scalars kept as their text. */
  datatype Json =
    | Object(fields: map<string, Json>)
    | Array(items: seq<Json>)
    | Scalar(text: string)

  datatype Status = Running | Exited

  /** One row of the answer to `list`. */
  datatype ProcInfo = ProcInfo(
    pid: nat, status: Status, exitCode: Option<int>, buffered: nat, subscribed: bool, idle: bool)

  datatype ResultMsg = ResultMsg(
    ok: bool,
    name: Name,
    error: Option<string>,
    pid: Option<nat>,
    alreadyRunning: Option<bool>,
    replayed: Option<nat>,
    status: Option<Status>,
    exitCode: Option<int>,
    idle: Option<bool>,
    processes: Option<map<Name, ProcInfo>>,
    uptime: Option<nat>)

  function Ok(name: Name): ResultMsg {
    ResultMsg(true, name, None, None, None, None, None, None, None, None, None)
  }

  function Err(name: Name, error: string): ResultMsg {
    ResultMsg(false, name, Some(error), None, None, None, None, None, None, None, None)
  }

  datatype ServerMsg =
    | Result(result: ResultMsg)
    | Stdout(name: Name, data: Json)
    | Stderr(name: Name, text: string)
    | Exit(name: Name, code: Option<int>)

  function NameOf(msg: ServerMsg): Name {
    match msg
    case Result(r) => r.name
    case Stdout(n, _) => n
    case Stderr(n, _) => n
    case Exit(n, _) => n
  }

  /** The `cmd` field of a command; an unknown verb keeps its text. */
  datatype Verb = Spawn | Kill | Interrupt | Subscribe | Unsubscribe | List | Uptime | Unknown(text: string)

  datatype CmdMsg = CmdMsg(verb: Verb, name: Name, cliArgs: seq<string>)

  datatype ClientMsg = Cmd(cmd: CmdMsg) | Stdin(name: Name, data: Json)

  /** A line from the client: a message, or text that does not parse as one. `splits` says that byte 200 falls inside a character. */
  datatype Line = Parsed(msg: ClientMsg) | Garbage(splits: bool)

  /** The commands among some lines, in order. */
  function Commands(lines: seq<Line>): seq<CmdMsg>
  {
    if lines == [] then []
    else
      var last := lines[|lines| - 1];
      Commands(lines[..|lines| - 1])
      + if last.Parsed? && last.msg.Cmd? then [last.msg.cmd] else []
  }

  lemma {:induction false} CommandsAppend(a: seq<Line>, b: seq<Line>)
    ensures Commands(a + b) == Commands(a) + Commands(b)
  {
    if b == [] {
      assert a + b == a;
    } else {
      assert (a + b)[..|a + b| - 1] == a + b[..|b| - 1];
      CommandsAppend(a, b[..|b| - 1]);
    }
  }
}
