/** Memory-tier detection for the original Xbox: one process-wide flag that says whether the
    console is a 64MB unit, written once by detection and read back by the renderer. */
module XboxMemory {
  import opened Options

  /** A Win32 DWORD: the reported physical-memory total is an unsigned 32-bit value. */
  newtype DWord = x: int | 0 <= x < 0x1_0000_0000

  /** Reported totals strictly below 80 MiB (83,886,080 bytes) classify the console as 64MB. */
  const LowMemoryThreshold: int := 80 * 1024 * 1024

  /** The process-wide tier state: the field is `g_bIsXbox64MB`. */
  class MemoryTier {
    var is64MB: bool
    /** The total that detection last read; None while detection has not run. */
    ghost var measured: Option<DWord>

    ghost predicate Valid()
      reads this
    {
      is64MB <==> (measured.Some? && (measured.value as int) < LowMemoryThreshold)
    }

    /** The static initialiser: the flag starts out false. */
    constructor ()
      ensures Valid() && measured == None && !is64MB
    {
      is64MB := false;
      measured := None;
    }

    /** `Xbox_DetectMemory`, with the platform query's result passed in as `totalMem`. */
    method DetectMemory(totalMem: DWord)
      modifies this
      ensures Valid() && measured == Some(totalMem)
      ensures is64MB <==> (totalMem as int) < 83_886_080
    {
      if (totalMem as int) < 80 * 1024 * 1024 {
        is64MB := true;
      } else {
        is64MB := false;
      }
      measured := Some(totalMem);
    }

    /** `Xbox_Is64MB`: false before detection, afterwards whether the measured total was below 80 MiB. */
    function Is64MB(): (r: bool)
      reads this
      requires Valid()
      ensures r <==> (measured.Some? && (measured.value as int) < LowMemoryThreshold)
    {
      is64MB
    }
  }

  /** Detection followed by any number of reads: every read reports the classification of the
      measured total, and exactly 80 MiB lands on the 128MB side. */
  method DetectThenQuery(tier: MemoryTier, totalMem: DWord) returns (first: bool, second: bool)
    modifies tier
    ensures first == second == ((totalMem as int) < LowMemoryThreshold)
    ensures totalMem as int == 83_886_080 ==> !first
    ensures totalMem as int == 83_886_079 ==> first
  {
    tier.DetectMemory(totalMem);
    first := tier.Is64MB();
    second := tier.Is64MB();
  }
}
