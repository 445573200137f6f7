/**
 * The proof-request data model of the starknet-prove-core crate: the
 * execution layouts the external prover understands, with their canonical
 * names, and the data a proving call carries.
 */
module ProveCore {
  import opened RustTypes

  /** The execution layouts, a closed set of nine named profiles. */
  datatype Layout =
    | Plain
    | Small
    | Dex
    | Recursive
    | Starknet
    | RecursiveLargeOutput
    | AllCairo
    | AllSolidity
    | StarknetWithKeccak

  /** Every layout, in declaration order. */
  const AllLayouts: seq<Layout> :=
    [Plain, Small, Dex, Recursive, Starknet, RecursiveLargeOutput, AllCairo, AllSolidity,
     StarknetWithKeccak]

  /** The strings `from_str` accepts, as its match arms list them. */
  const LayoutNames: set<string> :=
    {"plain", "small", "dex", "recursive", "starknet", "recursive_large_output", "all_cairo",
     "all_solidity", "starknet_with_keccak"}

  predicate IsSnakeChar(c: char) {
    'a' <= c <= 'z' || c == '_'
  }

  /**
   * Snake case: non-empty, lower-case ASCII letters and underscores only,
   * no underscore at either end and never two in a row.
   */
  predicate IsSnakeCase(s: string) {
    && |s| > 0
    && (forall i :: 0 <= i < |s| ==> IsSnakeChar(s[i]))
    && s[0] != '_'
    && s[|s| - 1] != '_'
    && (forall i :: 0 <= i < |s| - 1 ==> s[i] == '_' ==> s[i + 1] != '_')
  }

  /** `Layout::name`: the snake-case name the stone prover uses for a layout. */
  function Name(l: Layout): (r: string)
    ensures IsSnakeCase(r)
    ensures r in LayoutNames
  {
    match l
    case Plain => "plain"
    case Small => "small"
    case Dex => "dex"
    case Recursive => "recursive"
    case Starknet => "starknet"
    case RecursiveLargeOutput => "recursive_large_output"
    case AllCairo => "all_cairo"
    case AllSolidity => "all_solidity"
    case StarknetWithKeccak => "starknet_with_keccak"
  }

  /**
   * `FromStr for Layout`: the layout a name denotes; any other string is
   * rejected with the payload-less error `Err(())`.
   */
  function FromStr(s: string): (r: Result<Layout, ()>)
    ensures r.Ok? ==> Name(r.value) == s
    ensures r.Err? <==> forall l :: Name(l) != s
  {
    if s == "plain" then Ok(Plain)
    else if s == "small" then Ok(Small)
    else if s == "dex" then Ok(Dex)
    else if s == "recursive" then Ok(Recursive)
    else if s == "starknet" then Ok(Starknet)
    else if s == "recursive_large_output" then Ok(RecursiveLargeOutput)
    else if s == "all_cairo" then Ok(AllCairo)
    else if s == "all_solidity" then Ok(AllSolidity)
    else if s == "starknet_with_keccak" then Ok(StarknetWithKeccak)
    else Err(())
  }

  /** Parsing a layout's name gives that layout back. */
  lemma FromStrName(l: Layout)
    ensures FromStr(Name(l)) == Ok(l)
  {
    match l
    case Plain =>
    case Small =>
    case Dex =>
    case Recursive =>
    case Starknet =>
    case RecursiveLargeOutput =>
    case AllCairo =>
    case AllSolidity =>
    case StarknetWithKeccak =>
  }

  /** Distinct layouts have distinct names. */
  lemma NameInjective(a: Layout, b: Layout)
    ensures Name(a) == Name(b) ==> a == b
  {
    FromStrName(a);
    FromStrName(b);
  }

  /** `from_str` accepts exactly the nine names, which are exactly the image of `name`. */
  lemma AcceptedNames(s: string)
    ensures FromStr(s).Ok? <==> s in LayoutNames
    ensures s in LayoutNames <==> exists l :: Name(l) == s
  {
    if s in LayoutNames {
      assert FromStr(s).Ok?;
      assert Name(FromStr(s).value) == s;
    }
  }

  /** There are nine layouts, with nine distinct names. */
  lemma NineLayouts()
    ensures forall l :: l in AllLayouts
    ensures forall i, j :: 0 <= i < j < |AllLayouts| ==> AllLayouts[i] != AllLayouts[j]
    ensures |LayoutNames| == |AllLayouts| == 9
  {
    forall l ensures l in AllLayouts {
      match l
      case Plain => assert AllLayouts[0] == l;
      case Small => assert AllLayouts[1] == l;
      case Dex => assert AllLayouts[2] == l;
      case Recursive => assert AllLayouts[3] == l;
      case Starknet => assert AllLayouts[4] == l;
      case RecursiveLargeOutput => assert AllLayouts[5] == l;
      case AllCairo => assert AllLayouts[6] == l;
      case AllSolidity => assert AllLayouts[7] == l;
      case StarknetWithKeccak => assert AllLayouts[8] == l;
    }
  }

  /** A field element of the Cairo virtual machine; carried through, never computed with. */
  datatype Felt = Felt(repr: nat)

  /** A named range of the public memory, from `start` to `end`. */
  datatype MemorySegment = MemorySegment(name: string, start: Felt, end: Felt)

  /** One public-memory cell: its address, its value and its page. */
  datatype MemoryEntry = MemoryEntry(address: nat, value: Felt, page: nat)

  /** Everything a proving call needs: the public input, then the private input. */
  datatype ProofRequest = ProofRequest(
    layout: Layout,
    rcMin: int,
    rcMax: int,
    nSteps: nat,
    memorySegments: seq<MemorySegment>,
    publicMemory: seq<MemoryEntry>,
    dynamicParams: (),
    trace: seq<u8>,
    memory: seq<u8>,
    pedersen: seq<Felt>,
    rangeCheck: seq<Felt>,
    ecdsa: seq<Felt>,
    bitwise: seq<Felt>,
    ecOps: seq<Felt>,
    keccak: seq<Felt>,
    poseidon: seq<Felt>)

  /** The proof a prover produces; it has no fields yet. */
  datatype Proof = Proof
}
