/**
 * Command: requests are objects. An invoker holds a start slot and an end
 * slot, each empty or holding a command, and executes the one it is asked
 * for. Executing a command writes lines, returned here in order.
 */
module Command {
  import opened Wrappers
  import Decimal

  /** `std::size_t` on a 64-bit platform. */
  newtype SizeT = x: int | 0 <= x < 0x1_0000_0000_0000_0000

  /**
   * The concrete commands. A complex command's receiver hashes the request
   * string with `std::hash`; that value is implementation-defined, so it is
   * carried here as given.
   */
  datatype Command =
    | SimpleCommand(str: string)
    | ComplexCommand(str: string, receiverHash: SizeT)

  const SimplePrefix: string := "Executing simple command. This simple command just prints string: "
  const ComplexHeader: string := "Executing complex command:"
  const RequestLabel: string := "Request string:"
  const HashLabel: string := "Hash for this string = "

  /** `execute` of each command. */
  function Execute(c: Command): (lines: seq<string>)
    ensures |lines| == (if c.SimpleCommand? then 1 else 3)
  {
    match c
    case SimpleCommand(str) => [SimplePrefix + str]
    case ComplexCommand(str, h) =>
      [ComplexHeader, RequestLabel + str, HashLabel + Decimal.NatToString(h as nat)]
  }

  /** The text that follows `prefix` on `line`, if `line` starts with it. */
  function After(prefix: string, line: string): (r: Option<string>)
    ensures r.Some? ==> prefix + r.value == line
  {
    if |prefix| <= |line| && line[..|prefix|] == prefix then
      assert prefix + line[|prefix|..] == line;
      Some(line[|prefix|..])
    else None
  }

  lemma AfterJoin(prefix: string, rest: string)
    ensures After(prefix, prefix + rest) == Some(rest)
  {
    assert (prefix + rest)[..|prefix|] == prefix;
    assert (prefix + rest)[|prefix|..] == rest;
  }

  /**
   * Executing a command shows its request string unchanged, and a complex
   * command also shows its receiver's hash in decimal.
   */
  lemma ExecuteShowsRequest(c: Command)
    ensures c.SimpleCommand? ==> After(SimplePrefix, Execute(c)[0]) == Some(c.str)
    ensures c.ComplexCommand? ==>
              Execute(c)[0] == ComplexHeader &&
              After(RequestLabel, Execute(c)[1]) == Some(c.str) &&
              After(HashLabel, Execute(c)[2]).Some? &&
              Decimal.ParseNat(After(HashLabel, Execute(c)[2]).value) == Some(c.receiverHash as nat)
  {
    match c
    case SimpleCommand(str) =>
      AfterJoin(SimplePrefix, str);
    case ComplexCommand(str, h) =>
      AfterJoin(RequestLabel, str);
      AfterJoin(HashLabel, Decimal.NatToString(h as nat));
      Decimal.NatRoundTrip(h as nat);
  }

  /** Holds the command to run on start and the one to run on end. */
  class Invoker {
    var startCommand: Option<Command>
    var endCommand: Option<Command>

    /** Both slots start empty. */
    constructor()
      ensures startCommand == None && endCommand == None
    {
      startCommand := None;
      endCommand := None;
    }

    /** Replaces the start slot only; `None` (a null pointer) empties it. */
    method SetOnStartCommand(command: Option<Command>)
      modifies this
      ensures startCommand == command && endCommand == old(endCommand)
    {
      startCommand := command;
    }

    /** Replaces the end slot only; `None` (a null pointer) empties it. */
    method SetOnEndCommand(command: Option<Command>)
      modifies this
      ensures endCommand == command && startCommand == old(startCommand)
    {
      endCommand := command;
    }

    /** Executes the start command; the slot must be set (an empty one is dereferenced). */
    method Start() returns (lines: seq<string>)
      requires startCommand.Some?
      ensures lines == Execute(startCommand.value)
    {
      lines := Execute(startCommand.value);
    }

    /** Executes the end command; the slot must be set. */
    method End() returns (lines: seq<string>)
      requires endCommand.Some?
      ensures lines == Execute(endCommand.value)
    {
      lines := Execute(endCommand.value);
    }
  }

  /**
   * The demonstration: a simple command on start and a complex one on end,
   * both for "Hello world!". `helloHash` is what `std::hash` yields for it.
   */
  method Client(helloHash: SizeT) returns (startLines: seq<string>, endLines: seq<string>)
    ensures startLines == [SimplePrefix + "Hello world!"]
    ensures endLines == [ComplexHeader, RequestLabel + "Hello world!",
                         HashLabel + Decimal.NatToString(helloHash as nat)]
  {
    var invoker := new Invoker();
    invoker.SetOnStartCommand(Some(SimpleCommand("Hello world!")));
    invoker.SetOnEndCommand(Some(ComplexCommand("Hello world!", helloHash)));
    startLines := invoker.Start();
    endLines := invoker.End();
  }
}
