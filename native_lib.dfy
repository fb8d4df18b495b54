/**
 * The JNI entry point MainActivity.startNodeWithArguments (native-lib.cpp).
 *
 * It turns a Java String[] into a C argv for node::Start. Node's libuv wants
 * every argv string in one contiguous block, so the routine measures all
 * arguments first, allocates one zeroed buffer of exactly the total size, and
 * then packs the arguments into it back to back, each followed by a NUL,
 * recording where each one starts.
 *
 * Model: a Java string is the byte sequence JNI's modified UTF-8 gives for it
 * (never containing a NUL byte); the buffer is an array of bytes; a char*
 * into the buffer is an offset into that array; node::Start is a function
 * parameter.
 */
module NativeLib {

  /** C `int`, JNI `jint` and `jsize` on Android: 32-bit two's complement. */
  newtype int32 = x: int | -0x8000_0000 <= x < 0x8000_0000

  const INT32_MAX: int := 0x7fff_ffff

  const NUL: bv8 := 0

  /** A byte string with no NUL byte in it. */
  predicate NoNul(s: seq<bv8>) {
    forall k :: 0 <= k < |s| ==> s[k] != NUL
  }

  /** Every argument is free of NUL bytes, as modified UTF-8 guarantees. */
  predicate AllNoNul(args: seq<seq<bv8>>) {
    forall i :: 0 <= i < |args| ==> NoNul(args[i])
  }

  /** GetStringUTFChars: the string's bytes with a terminating NUL. */
  function UtfChars(arg: seq<bv8>): seq<bv8> {
    arg + [NUL]
  }

  /**
   * The C string at offset `p` of `buf`: the bytes from `p` up to, not
   * including, the first NUL (or up to the end of `buf` when there is none).
   */
  function CString(buf: seq<bv8>, p: nat): (s: seq<bv8>)
    requires p <= |buf|
    ensures p + |s| <= |buf| && buf[p..p + |s|] == s
    ensures NoNul(s)
    ensures p + |s| == |buf| || buf[p + |s|] == NUL
    decreases |buf| - p
  {
    if p == |buf| || buf[p] == NUL then [] else [buf[p]] + CString(buf, p + 1)
  }

  /** strlen: the number of bytes before the first NUL. */
  function Strlen(chars: seq<bv8>): nat {
    |CString(chars, 0)|
  }

  /** A NUL-free run followed by a NUL reads back as exactly that run. */
  lemma CStringOf(buf: seq<bv8>, p: nat, s: seq<bv8>)
    requires NoNul(s) && p + |s| < |buf|
    requires buf[p..p + |s|] == s && buf[p + |s|] == NUL
    ensures CString(buf, p) == s
  {
  }

  /** strlen of GetStringUTFChars(arg) is the argument's byte length. */
  lemma StrlenOfUtfChars(arg: seq<bv8>)
    requires NoNul(arg)
    ensures Strlen(UtfChars(arg)) == |arg|
  {
    assert UtfChars(arg)[0..|arg|] == arg;
    CStringOf(UtfChars(arg), 0, arg);
  }

  /** Σ (len_i + 1): the byte count the sizing pass adds up. */
  function PackedSize(args: seq<seq<bv8>>): nat {
    if args == [] then 0 else PackedSize(args[..|args| - 1]) + |args[|args| - 1]| + 1
  }

  /**
   * The bytes the packed buffer holds: each argument followed by a NUL, back
   * to back, in order. It is exactly Σ (len_i + 1) bytes long.
   */
  function Packed(args: seq<seq<bv8>>): (buf: seq<bv8>)
    ensures |buf| == PackedSize(args)
  {
    if args == [] then [] else Packed(args[..|args| - 1]) + UtfChars(args[|args| - 1])
  }

  /** Each further argument adds at least its terminator to the running size. */
  lemma {:induction false} PrefixSizeMonotone(args: seq<seq<bv8>>, j: nat, k: nat)
    requires j <= k <= |args|
    ensures PackedSize(args[..j]) + (k - j) <= PackedSize(args[..k])
    decreases k - j
  {
    if j < k {
      assert args[..k][..k - 1] == args[..k - 1];
      PrefixSizeMonotone(args, j, k - 1);
    }
  }

  /**
   * Where argument i's slot starts: the cursor after the first i arguments.
   * Each argument still to come takes at least its terminator, so the cursor
   * never runs past the end of the buffer.
   */
  function SlotStart(args: seq<seq<bv8>>, i: nat): (start: nat)
    requires i <= |args|
    ensures start + (|args| - i) <= PackedSize(args)
  {
    PrefixSizeMonotone(args, i, |args|);
    assert args[..|args|] == args;
    PackedSize(args[..i])
  }

  /** The cursor moves forward by exactly len_i + 1 over argument i. */
  lemma SlotStep(args: seq<seq<bv8>>, i: nat)
    requires i < |args|
    ensures SlotStart(args, i + 1) == SlotStart(args, i) + |args[i]| + 1
  {
    assert args[..i + 1][..i] == args[..i];
  }

  /** The argv vector, as offsets into the packed buffer: one per argument, each inside the buffer. */
  function Offsets(args: seq<seq<bv8>>): (offsets: seq<nat>)
    ensures |offsets| == |args|
    ensures forall i :: 0 <= i < |args| ==> offsets[i] < PackedSize(args)
  {
    seq(|args|, i requires 0 <= i < |args| => SlotStart(args, i))
  }

  /** Packing a prefix of the arguments gives a prefix of the packed buffer. */
  lemma {:induction false} PackedPrefix(args: seq<seq<bv8>>, j: nat)
    requires j <= |args|
    ensures SlotStart(args, j) <= |Packed(args)|
    ensures Packed(args)[..SlotStart(args, j)] == Packed(args[..j])
  {
    if j == |args| {
      assert args[..j] == args;
    } else {
      var init := args[..|args| - 1];
      assert init[..j] == args[..j];
      PackedPrefix(init, j);
    }
  }

  /** Slot i holds argument i's bytes and then a NUL, all inside the buffer. */
  lemma SlotContents(args: seq<seq<bv8>>, i: nat)
    requires i < |args|
    ensures SlotStart(args, i) + |args[i]| < |Packed(args)|
    ensures Packed(args)[SlotStart(args, i)..SlotStart(args, i) + |args[i]|] == args[i]
    ensures Packed(args)[SlotStart(args, i) + |args[i]|] == NUL
  {
    var start := SlotStart(args, i);
    PackedPrefix(args, i + 1);
    SlotStep(args, i);
    assert args[..i + 1][..i] == args[..i];
    assert Packed(args[..i + 1]) == Packed(args[..i]) + args[i] + [NUL];
    assert Packed(args)[start..start + |args[i]|] == Packed(args[..i + 1])[start..start + |args[i]|];
  }

  /** Round trip: reading the C string at argv[i] gives back argument i. */
  lemma {:induction false} ArgvRoundTrip(args: seq<seq<bv8>>, i: nat)
    requires AllNoNul(args) && i < |args|
    ensures CString(Packed(args), Offsets(args)[i]) == args[i]
  {
    SlotContents(args, i);
    CStringOf(Packed(args), SlotStart(args, i), args[i]);
  }

  /** Slots are disjoint and in order: slot i, terminator included, ends before slot j begins. */
  lemma SlotsDisjoint(args: seq<seq<bv8>>, i: nat, j: nat)
    requires i < j < |args|
    ensures Offsets(args)[i] + |args[i]| < Offsets(args)[j]
  {
    SlotStep(args, i);
    PrefixSizeMonotone(args, i + 1, j);
  }

  /** memcpy(dst + at, src, |src|). */
  method MemCopy(dst: array<bv8>, at: nat, src: seq<bv8>)
    requires at + |src| <= dst.Length
    modifies dst
    ensures dst[..] == old(dst[..at]) + src + old(dst[at + |src|..])
  {
    forall k | 0 <= k < |src| {
      dst[at + k] := src[k];
    }
  }

  /** The sizing pass: add up strlen + 1 over the arguments in a C int. */
  method MeasureArguments(arguments: seq<seq<bv8>>) returns (size: int32)
    requires AllNoNul(arguments)
    requires PackedSize(arguments) <= INT32_MAX
    ensures size as int == PackedSize(arguments)
  {
    size := 0;
    var i := 0;
    while i < |arguments|
      invariant 0 <= i <= |arguments|
      invariant size as int == SlotStart(arguments, i)
    {
      var chars := UtfChars(arguments[i]);
      StrlenOfUtfChars(arguments[i]);
      SlotStep(arguments, i);
      PrefixSizeMonotone(arguments, i + 1, |arguments|);
      assert arguments[..|arguments|] == arguments;
      size := size + (Strlen(chars) as int32 + 1);
      i := i + 1;
    }
    assert arguments[..i] == arguments;
  }

  /**
   * One slot of the copy pass: memcpy the argument's bytes to offset `at`,
   * write the NUL right after them and point argv[i] at the slot.
   */
  method WriteSlot(buffer: array<bv8>, argv: array<nat>, i: nat, at: nat, chars: seq<bv8>, argLength: nat)
    requires argLength < |chars| && at + argLength < buffer.Length && i < argv.Length
    requires buffer as object != argv
    modifies buffer, argv
    ensures buffer[..at + argLength + 1] == old(buffer[..at]) + chars[..argLength] + [NUL]
    ensures buffer[at + argLength + 1..] == old(buffer[at + argLength + 1..])
    ensures argv[..] == old(argv[..])[i := at]
    ensures argv[..i + 1] == old(argv[..i]) + [at]
  {
    ghost var argvBefore := argv[..i];
    ghost var argvAll := argv[..];
    ghost var rest := buffer[at + argLength + 1..];
    MemCopy(buffer, at, chars[..argLength]);
    buffer[at + argLength] := NUL;
    assert buffer[..at + argLength + 1] == buffer[..at + argLength] + [NUL];
    ghost var slotWritten := buffer[..at + argLength + 1];
    argv[i] := at;
    assert buffer[..at + argLength + 1] == slotWritten;
    assert buffer[at + argLength + 1..] == rest;
    assert argv[..] == argvAll[i := at];
    assert argv[..i] == argvBefore;
    assert argv[..i + 1] == argv[..i] + [at];
  }

  /** Packing one more argument appends its bytes and a NUL. */
  lemma PackedSnoc(args: seq<seq<bv8>>, i: nat)
    requires i < |args|
    ensures Packed(args[..i + 1]) == Packed(args[..i]) + args[i] + [NUL]
  {
    assert args[..i + 1][..i] == args[..i];
  }

  /**
   * The copy pass: copy each argument and a NUL into the buffer at the
   * cursor, record the cursor in argv[i], and advance it by len + 1.
   */
  method PackArguments(arguments: seq<seq<bv8>>, buffer: array<bv8>, argv: array<nat>)
    requires AllNoNul(arguments)
    requires buffer.Length == PackedSize(arguments) && argv.Length == |arguments|
    requires buffer as object != argv
    modifies buffer, argv
    ensures buffer[..] == Packed(arguments)
    ensures argv[..] == Offsets(arguments)
  {
    var current: nat := 0;
    var i := 0;
    while i < |arguments|
      invariant 0 <= i <= |arguments|
      invariant current == SlotStart(arguments, i) <= buffer.Length
      invariant buffer[..current] == Packed(arguments[..i])
      invariant argv[..i] == Offsets(arguments)[..i]
    {
      var chars := UtfChars(arguments[i]);
      var argLength := Strlen(chars);
      StrlenOfUtfChars(arguments[i]);
      SlotStep(arguments, i);
      WriteSlot(buffer, argv, i, current, chars, argLength);
      assert chars[..argLength] == arguments[i];
      PackedSnoc(arguments, i);
      assert Offsets(arguments)[..i + 1] == Offsets(arguments)[..i] + [Offsets(arguments)[i]];
      current := current + argLength + 1;
      i := i + 1;
    }
    assert arguments[..i] == arguments;
    assert buffer[..] == buffer[..current];
  }

  /**
   * GetArrayLength: the argument count as a jsize. Every argument takes at
   * least its terminator, so the size bound keeps the count in range too.
   */
  function ArgumentCount(args: seq<seq<bv8>>): (count: int32)
    requires PackedSize(args) <= INT32_MAX
    ensures count as int == |args|
  {
    PrefixSizeMonotone(args, 0, |args|);
    assert args[..|args|] == args;
    |args| as int32
  }

  /** What happens to the packed buffer, in order. */
  datatype Step = Calloc(bytes: nat) | NodeStart(argc: int) | Free(bytes: nat)

  /**
   * Java_com_sillytavern_apk_MainActivity_startNodeWithArguments: measure,
   * allocate one zeroed buffer, pack, call node::Start with (argc, argv),
   * free the buffer and return node::Start's result unchanged.
   */
  method StartNodeWithArguments(arguments: seq<seq<bv8>>, nodeStart: (int32, seq<bv8>, seq<nat>) -> int32)
    returns (result: int32, ghost steps: seq<Step>)
    requires AllNoNul(arguments)
    requires PackedSize(arguments) <= INT32_MAX
    ensures result == nodeStart(ArgumentCount(arguments), Packed(arguments), Offsets(arguments))
    ensures arguments == [] ==> result == nodeStart(0, [], [])
    ensures steps == [Calloc(PackedSize(arguments)), NodeStart(|arguments|), Free(PackedSize(arguments))]
  {
    var argumentCount := ArgumentCount(arguments);
    var size := MeasureArguments(arguments);
    var argsBuffer := new bv8[size as int](_ => NUL);
    steps := [Calloc(size as int)];
    var argv := new nat[argumentCount as int];
    PackArguments(arguments, argsBuffer, argv);
    result := nodeStart(argumentCount, argsBuffer[..], argv[..]);
    steps := steps + [NodeStart(argumentCount as int)];
    steps := steps + [Free(argsBuffer.Length)];
  }
}
