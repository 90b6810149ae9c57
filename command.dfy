/** The commands of the VM language as the parser builds them (src/command.rs). */
module Commands {
  import opened Decimal

  datatype Arithmetic = ADD | SUB | NEG | EQ | GT | LT | AND | OR | NOT

  /** What `label` gives a segment that has no base pointer. */
  const InvalidLabel: string := "#INVALID_LABEL#"

  datatype MemorySegment = Local | Argument | This | That | Constant | Static | Pointer | Temp {
    /** The segments addressed through a base pointer held in a machine cell. */
    predicate IsIndirect() {
      Local? || Argument? || This? || That?
    }

    /**
     * The assembly line that selects the base pointer of an indirect segment; every other
     * segment gets the sentinel.
     */
    function Label(): (s: string)
      ensures s == InvalidLabel <==> !IsIndirect()
      ensures IsIndirect() ==> 4 <= |s| <= 5 && s[0] == '@'
    {
      match this
      case Local => "@LCL"
      case Argument => "@ARG"
      case This => "@THIS"
      case That => "@THAT"
      case _ => InvalidLabel
    }
  }

  /** Distinct indirect segments select distinct base pointers. */
  lemma LabelInjective(s1: MemorySegment, s2: MemorySegment)
    requires s1.IsIndirect() && s2.IsIndirect() && s1.Label() == s2.Label()
    ensures s1 == s2
  {
    match s1
    case Local => assert s1.Label()[1] == 'L';
    case Argument => assert s1.Label()[1] == 'A';
    case This => assert s1.Label()[3] == 'I';
    case That => assert s1.Label()[3] == 'A';
  }

  /**
   * A parsed VM command. Unlike the generator's command, `Call` carries only the callee
   * and the argument count, and label names are the tokens as written.
   */
  datatype Command =
    | Arithmetic(operation: Arithmetic)
    | Push(segment: MemorySegment, index: U16)
    | Pop(segment: MemorySegment, index: U16)
    | Label(name: string)
    | Goto(name: string)
    | IfGoto(name: string)
    | Function(name: string, count: U16)
    | Call(name: string, count: U16)
    | Return
}
