/** The launch options of an instance and the JVM arguments they produce (`instance/launch/mod.rs`). */
module Launch {
  import opened Wrappers
  import UpdateManager

  /** `MemoryNum`: an amount of memory. */
  type MemoryNum(==)

  /** `MemoryArg::to_string` for the initial (`Init`) and the maximum (`Max`) heap size. */
  datatype MemoryArgText = MemoryArgText(init: MemoryNum -> string, max: MemoryNum -> string)

  datatype LaunchOptions = LaunchOptions(
    java: UpdateManager.JavaKind,
    jvmArgs: seq<string>,
    gameArgs: seq<string>,
    initMem: Option<MemoryNum>,
    maxMem: Option<MemoryNum>)

  /** How many of the two memory options are set. */
  function MemoryCount(o: LaunchOptions): (n: nat)
    ensures n <= 2
  {
    (if o.initMem.Some? then 1 else 0) + (if o.maxMem.Some? then 1 else 0)
  }

  /**
   * `generate_jvm_args`: the configured arguments unchanged, then the initial-memory
   * argument if it is set, then the maximum-memory argument if it is set.
   */
  method GenerateJvmArgs(o: LaunchOptions, text: MemoryArgText) returns (out: seq<string>)
    ensures |out| == |o.jvmArgs| + MemoryCount(o)
    ensures out[..|o.jvmArgs|] == o.jvmArgs
    ensures o.initMem.Some? ==> out[|o.jvmArgs|] == text.init(o.initMem.value)
    ensures o.maxMem.Some? ==> out[|out| - 1] == text.max(o.maxMem.value)
    ensures o.initMem.None? && o.maxMem.None? ==> out == o.jvmArgs
  {
    out := o.jvmArgs;
    if o.initMem.Some? {
      out := out + [text.init(o.initMem.value)];
    }
    if o.maxMem.Some? {
      out := out + [text.max(o.maxMem.value)];
    }
  }
}
