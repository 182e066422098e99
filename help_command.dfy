/**
 * The built-in `help` pseudo-subcommand of the argument parser.
 *
 * Invoking it never does any work: it resolves the subcommand names the
 * user typed after `help` into a command stack and then raises a
 * help request, which the parser's driver catches and renders.
 *
 * The parser's command types are a type parameter `Cmd`; the name of a
 * command type and the parser's resolution of names into command types
 * are passed in as functions.
 */
module Usage {
  import opened Wrappers

  /** How much of a command's interface the rendered help shows. */
  datatype ArgumentVisibility = Default | Hidden | Private

  /**
   * The parser error raised by `help`: a request to render help, not a
   * failure. The parser's other error kinds are raised elsewhere and are
   * not modelled.
   */
  datatype ParserError = HelpRequested(visibility: ArgumentVisibility, search: Option<string>)

  /** An error raised while running a command, with the command stack it applies to. */
  datatype CommandError<Cmd> = CommandError(commandStack: seq<Cmd>, parserError: ParserError)

  /** The names of the commands on a stack, in stack order. */
  function CommandNames<Cmd>(stack: seq<Cmd>, commandName: Cmd -> string): (names: seq<string>)
    ensures |names| == |stack|
    ensures forall i :: 0 <= i < |stack| ==> names[i] == commandName(stack[i])
  {
    if stack == [] then [] else [commandName(stack[0])] + CommandNames(stack[1..], commandName)
  }

  // ---------------------------------------------------------------------
  // Keyed decoding
  // ---------------------------------------------------------------------

  /** The three keys the decoder reads. */
  datatype CodingKey = SubcommandsKey | HelpKey | SearchKey
  {
    function Name(): string
    {
      match this
      case SubcommandsKey => "subcommands"
      case HelpKey => "help"
      case SearchKey => "search"
    }
  }

  /** A value stored under a key; `NullValue` is an explicit `nil`. */
  datatype Value =
    | NullValue
    | BoolValue(b: bool)
    | StringValue(s: string)
    | ArrayValue(elements: seq<Value>)

  /** A keyed container: key names to values. A missing name is a missing key. */
  type KeyedContainer = map<string, Value>

  /** Why decoding one key failed. */
  datatype DecodingError =
    | KeyNotFound(key: CodingKey)
    | ValueNotFound(key: CodingKey)
    | TypeMismatch(key: CodingKey)

  /** The three values `init(from:)` decodes, in declaration order. */
  datatype DecodedFields = DecodedFields(subcommands: seq<string>, help: bool, search: string)

  /** The array value holding exactly the strings `ss`, in order. */
  function StringArray(ss: seq<string>): Value
  {
    ArrayValue(seq(|ss|, i requires 0 <= i < |ss| => StringValue(ss[i])))
  }

  /** `c` holds, under `key`, a value of the type the decoder expects for it. */
  predicate Holds(c: KeyedContainer, key: CodingKey)
  {
    key.Name() in c &&
    match key
    case SubcommandsKey =>
      c[key.Name()].ArrayValue? &&
      forall i :: 0 <= i < |c[key.Name()].elements| ==> c[key.Name()].elements[i].StringValue?
    case HelpKey => c[key.Name()].BoolValue?
    case SearchKey => c[key.Name()].StringValue?
  }

  /** Decodes the elements of an array as strings; any non-string element is a type mismatch. */
  function DecodeStringElements(key: CodingKey, elements: seq<Value>): (r: Result<seq<string>, DecodingError>)
    ensures r.Success? <==> forall i :: 0 <= i < |elements| ==> elements[i].StringValue?
    ensures r.Success? ==> |r.value| == |elements|
    ensures r.Success? ==> forall i :: 0 <= i < |elements| ==> elements[i] == StringValue(r.value[i])
    ensures r.Failure? ==> r.error == TypeMismatch(key)
  {
    if elements == [] then Success([])
    else
      match elements[0]
      case StringValue(s) =>
        (match DecodeStringElements(key, elements[1..])
         case Success(rest) => Success([s] + rest)
         case Failure(e) => Failure(e))
      case _ => Failure(TypeMismatch(key))
  }

  /** The first step of decoding one key: the key must be present and not `nil`. */
  function Present(c: KeyedContainer, key: CodingKey): Result<Value, DecodingError>
  {
    if key.Name() !in c then Failure(KeyNotFound(key))
    else if c[key.Name()] == NullValue then Failure(ValueNotFound(key))
    else Success(c[key.Name()])
  }

  /** `decode([String].self, forKey: key)`. */
  function DecodeStrings(c: KeyedContainer, key: CodingKey): Result<seq<string>, DecodingError>
  {
    match Present(c, key)
    case Failure(e) => Failure(e)
    case Success(ArrayValue(elements)) => DecodeStringElements(key, elements)
    case Success(_) => Failure(TypeMismatch(key))
  }

  /** `decode(Bool.self, forKey: key)`. */
  function DecodeBool(c: KeyedContainer, key: CodingKey): Result<bool, DecodingError>
  {
    match Present(c, key)
    case Failure(e) => Failure(e)
    case Success(BoolValue(b)) => Success(b)
    case Success(_) => Failure(TypeMismatch(key))
  }

  /** `decode(String.self, forKey: key)`: a non-optional string. */
  function DecodeString(c: KeyedContainer, key: CodingKey): Result<string, DecodingError>
  {
    match Present(c, key)
    case Failure(e) => Failure(e)
    case Success(StringValue(s)) => Success(s)
    case Success(_) => Failure(TypeMismatch(key))
  }

  /** The error decoding `key` raises when `c` does not hold it. */
  function MissingError(c: KeyedContainer, key: CodingKey): DecodingError
  {
    if key.Name() !in c then KeyNotFound(key)
    else if c[key.Name()] == NullValue then ValueNotFound(key)
    else TypeMismatch(key)
  }

  /**
   * The body of `init(from:)`: `subcommands`, then `help`, then `search`,
   * each decoded as a required value; the first failure is the error.
   */
  function DecodeFields(c: KeyedContainer): (r: Result<DecodedFields, DecodingError>)
    ensures r.Success? <==> Holds(c, SubcommandsKey) && Holds(c, HelpKey) && Holds(c, SearchKey)
    ensures r.Success? ==>
      c[SubcommandsKey.Name()] == StringArray(r.value.subcommands) &&
      c[HelpKey.Name()] == BoolValue(r.value.help) &&
      c[SearchKey.Name()] == StringValue(r.value.search)
    ensures !Holds(c, SubcommandsKey) ==> r == Failure(MissingError(c, SubcommandsKey))
    ensures Holds(c, SubcommandsKey) && !Holds(c, HelpKey) ==> r == Failure(MissingError(c, HelpKey))
    ensures Holds(c, SubcommandsKey) && Holds(c, HelpKey) && !Holds(c, SearchKey) ==>
      r == Failure(MissingError(c, SearchKey))
  {
    match DecodeStrings(c, SubcommandsKey)
    case Failure(e) => Failure(e)
    case Success(subcommands) =>
      var elements := c[SubcommandsKey.Name()].elements;
      assert elements == StringArray(subcommands).elements;
      match DecodeBool(c, HelpKey)
      case Failure(e) => Failure(e)
      case Success(help) =>
        match DecodeString(c, SearchKey)
        case Failure(e) => Failure(e)
        case Success(search) => Success(DecodedFields(subcommands, help, search))
  }

  /** Decoding the string array of `ss` gives back `ss`. */
  lemma {:induction false} DecodeStringArray(key: CodingKey, ss: seq<string>)
    ensures DecodeStringElements(key, StringArray(ss).elements) == Success(ss)
  {
    var r := DecodeStringElements(key, StringArray(ss).elements);
    assert r.Success?;
    assert r.value == ss by {
      forall i | 0 <= i < |ss| ensures r.value[i] == ss[i] {
        assert StringArray(ss).elements[i] == StringValue(ss[i]);
      }
    }
  }

  /** A container holding exactly the values of `f` under the three keys decodes to `f`. */
  lemma DecodeFieldsOf(c: KeyedContainer, f: DecodedFields)
    requires SubcommandsKey.Name() in c && c[SubcommandsKey.Name()] == StringArray(f.subcommands)
    requires HelpKey.Name() in c && c[HelpKey.Name()] == BoolValue(f.help)
    requires SearchKey.Name() in c && c[SearchKey.Name()] == StringValue(f.search)
    ensures DecodeFields(c) == Success(f)
  {
    DecodeStringArray(SubcommandsKey, f.subcommands);
  }

  /** A missing `search` key fails decoding: `search` is decoded as a required string. */
  lemma MissingSearchFails(c: KeyedContainer)
    requires Holds(c, SubcommandsKey) && Holds(c, HelpKey)
    requires SearchKey.Name() !in c
    ensures DecodeFields(c) == Failure(KeyNotFound(SearchKey))
  {
  }

  /** An explicit `nil` under `search` fails decoding too. */
  lemma NullSearchFails(c: KeyedContainer)
    requires Holds(c, SubcommandsKey) && Holds(c, HelpKey)
    requires SearchKey.Name() in c && c[SearchKey.Name()] == NullValue
    ensures DecodeFields(c) == Failure(ValueNotFound(SearchKey))
  {
  }

  /** Decoding reads the three coding keys and nothing else in the container. */
  lemma DecodeReadsOnlyCodingKeys(c1: KeyedContainer, c2: KeyedContainer)
    requires forall k: CodingKey :: (k.Name() in c1 <==> k.Name() in c2)
    requires forall k: CodingKey :: k.Name() in c1 ==> c1[k.Name()] == c2[k.Name()]
    ensures DecodeFields(c1) == DecodeFields(c2)
  {
  }

  // ---------------------------------------------------------------------
  // The command
  // ---------------------------------------------------------------------

  class HelpCommand<Cmd> {
    /** The name under which the parser recognises this command. */
    static const Name: string := "help"

    /** The subcommand names given after `help`. */
    var subcommands: seq<string>
    /** Absorbs a redundant `-h`/`--help`/`-help`; never read. */
    var help: bool
    /** The term to search the help output for. */
    var search: Option<string>
    /** The resolved commands help is shown for; empty until resolved. */
    var commandStack: seq<Cmd>
    /** Which arguments the rendered help includes. */
    var visibility: ArgumentVisibility

    /** `init()`: every field at its declared default. */
    constructor ()
      ensures subcommands == [] && !help && search == None
      ensures commandStack == [] && visibility == Default
    {
      subcommands := [];
      help := false;
      search := None;
      commandStack := [];
      visibility := Default;
    }

    /**
     * `init(commandStack:visibility:)`, used by a parent help flow that
     * already knows the stack. The subcommand names are the stack's
     * names. The Swift initialiser assigns `search` from itself; taking
     * the property's default to be `nil`, it stays `nil`.
     */
    constructor FromCommandStack(commandStack: seq<Cmd>, visibility: ArgumentVisibility, commandName: Cmd -> string)
      ensures this.commandStack == commandStack && this.visibility == visibility
      ensures |subcommands| == |commandStack|
      ensures forall i :: 0 <= i < |commandStack| ==> subcommands[i] == commandName(commandStack[i])
      ensures !help && search == None
    {
      this.commandStack := commandStack;
      this.visibility := visibility;
      subcommands := CommandNames(commandStack, commandName);
      help := false;
      search := None;
    }

    /** The same initialiser with the search term as an explicit input. */
    constructor FromCommandStackSearching(commandStack: seq<Cmd>, visibility: ArgumentVisibility,
                                          search: Option<string>, commandName: Cmd -> string)
      ensures this.commandStack == commandStack && this.visibility == visibility
      ensures |subcommands| == |commandStack|
      ensures forall i :: 0 <= i < |commandStack| ==> subcommands[i] == commandName(commandStack[i])
      ensures !help && this.search == search
    {
      this.commandStack := commandStack;
      this.visibility := visibility;
      subcommands := CommandNames(commandStack, commandName);
      help := false;
      this.search := search;
    }

    /**
     * `init(from:)`: decodes `subcommands`, `help` and `search`; the
     * command stack and the visibility keep their defaults. No object is
     * made when decoding fails.
     */
    static method Decode(c: KeyedContainer) returns (r: Result<HelpCommand<Cmd>, DecodingError>)
      ensures r.Failure? <==> DecodeFields(c).Failure?
      ensures r.Failure? ==> r.error == DecodeFields(c).error
      ensures r.Success? ==>
        fresh(r.value) &&
        r.value.subcommands == DecodeFields(c).value.subcommands &&
        r.value.help == DecodeFields(c).value.help &&
        r.value.search == Some(DecodeFields(c).value.search) &&
        r.value.commandStack == [] && r.value.visibility == Default
    {
      match DecodeFields(c)
      case Failure(e) =>
        r := Failure(e);
      case Success(f) =>
        var h := new HelpCommand<Cmd>();
        h.subcommands, h.help, h.search := f.subcommands, f.help, Some(f.search);
        r := Success(h);
    }

    /**
     * `run()`: never completes normally. It raises a help request that
     * carries the command stack, the visibility and the search term as
     * they are; `subcommands` and `help` play no part. Declared
     * `mutating` in Swift but assigns nothing: no field may change.
     */
    method Run() returns (outcome: Outcome<CommandError<Cmd>>)
      ensures outcome.Fail?
      ensures outcome.error.commandStack == commandStack
      ensures outcome.error.parserError.visibility == visibility
      ensures outcome.error.parserError.search == search
    {
      outcome := Fail(CommandError(commandStack, HelpRequested(visibility, search)));
    }

    /** `buildCommandStack(with:)`: resolves `subcommands`; only `commandStack` changes. */
    method BuildCommandStack(resolve: seq<string> -> seq<Cmd>)
      modifies this`commandStack
      ensures commandStack == resolve(subcommands)
      ensures subcommands == old(subcommands) && help == old(help)
      ensures search == old(search) && visibility == old(visibility)
    {
      commandStack := resolve(subcommands);
    }
  }

  /**
   * A parent help flow that knows the command stack, builds `help` with
   * `init(commandStack:visibility:)` and runs it: whatever search term the
   * flow had, the request carries none.
   */
  method RequestHelpFor<Cmd>(stack: seq<Cmd>, visibility: ArgumentVisibility, commandName: Cmd -> string)
    returns (outcome: Outcome<CommandError<Cmd>>)
    ensures outcome == Fail(CommandError(stack, HelpRequested(visibility, None)))
  {
    var command := new HelpCommand<Cmd>.FromCommandStack(stack, visibility, commandName);
    outcome := command.Run();
  }

  /** The same flow with the search term passed through: the request carries it verbatim. */
  method RequestHelpSearchingFor<Cmd>(stack: seq<Cmd>, visibility: ArgumentVisibility, search: Option<string>,
                                      commandName: Cmd -> string)
    returns (outcome: Outcome<CommandError<Cmd>>)
    ensures outcome == Fail(CommandError(stack, HelpRequested(visibility, search)))
  {
    var command := new HelpCommand<Cmd>.FromCommandStackSearching(stack, visibility, search, commandName);
    outcome := command.Run();
  }
}
