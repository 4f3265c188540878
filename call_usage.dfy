/** CallUsage: the token counts one OpenAI call reports, updated field by field through setters. */
module Usage {
  import opened Wrappers
  import opened JavaInt

  class CallUsage {
    var inputTokens: Int32
    var outputTokens: Int32
    var cachedInputTokens: Int32
    var cachedOutputTokens: Int32
    /** An `Integer`: None is Java's null. */
    var totalTokens: Option<Int32>

    /** A new record: every count 0 and no total. */
    constructor()
      ensures inputTokens == 0 && outputTokens == 0
      ensures cachedInputTokens == 0 && cachedOutputTokens == 0
      ensures totalTokens == None
    {
      inputTokens := 0;
      outputTokens := 0;
      cachedInputTokens := 0;
      cachedOutputTokens := 0;
      totalTokens := None;
    }

    /**
     * getEffectiveTotal: the reported total when there is one, whatever the other counts say;
     * otherwise input plus output with negative counts read as 0, summed in 32-bit arithmetic.
     */
    function EffectiveTotal(): (r: Int32)
      reads this
      ensures totalTokens.Some? ==> r == totalTokens.value
      ensures totalTokens.None? ==> (r - (Max0(inputTokens) + Max0(outputTokens))) % 0x1_0000_0000 == 0
      ensures totalTokens.None? && Max0(inputTokens) + Max0(outputTokens) <= INT_MAX ==>
                r == Max0(inputTokens) + Max0(outputTokens)
      ensures totalTokens.None? ==> (r >= 0 <==> Max0(inputTokens) + Max0(outputTokens) <= INT_MAX)
    {
      match totalTokens
      case Some(t) => t
      case None => Wrap32(Max0(inputTokens) + Max0(outputTokens))
    }

    method SetInputTokens(v: Int32)
      modifies this
      ensures inputTokens == v
      ensures outputTokens == old(outputTokens) && totalTokens == old(totalTokens)
      ensures cachedInputTokens == old(cachedInputTokens) && cachedOutputTokens == old(cachedOutputTokens)
    {
      inputTokens := v;
    }

    method SetOutputTokens(v: Int32)
      modifies this
      ensures outputTokens == v
      ensures inputTokens == old(inputTokens) && totalTokens == old(totalTokens)
      ensures cachedInputTokens == old(cachedInputTokens) && cachedOutputTokens == old(cachedOutputTokens)
    {
      outputTokens := v;
    }

    /** The cached counts are bookkeeping only: setting one leaves the effective total as it was. */
    method SetCachedInputTokens(v: Int32)
      modifies this
      ensures cachedInputTokens == v
      ensures inputTokens == old(inputTokens) && outputTokens == old(outputTokens) && totalTokens == old(totalTokens)
      ensures cachedOutputTokens == old(cachedOutputTokens)
      ensures EffectiveTotal() == old(EffectiveTotal())
    {
      cachedInputTokens := v;
    }

    method SetCachedOutputTokens(v: Int32)
      modifies this
      ensures cachedOutputTokens == v
      ensures inputTokens == old(inputTokens) && outputTokens == old(outputTokens) && totalTokens == old(totalTokens)
      ensures cachedInputTokens == old(cachedInputTokens)
      ensures EffectiveTotal() == old(EffectiveTotal())
    {
      cachedOutputTokens := v;
    }

    /** Setting a total makes it the effective total, however the counts disagree with it. */
    method SetTotalTokens(v: Option<Int32>)
      modifies this
      ensures totalTokens == v
      ensures inputTokens == old(inputTokens) && outputTokens == old(outputTokens)
      ensures cachedInputTokens == old(cachedInputTokens) && cachedOutputTokens == old(cachedOutputTokens)
      ensures v.Some? ==> EffectiveTotal() == v.value
    {
      totalTokens := v;
    }
  }

  /** A fresh record reports an effective total of 0. */
  lemma NewUsageTotalsZero(u: CallUsage)
    requires u.inputTokens == 0 && u.outputTokens == 0 && u.totalTokens == None
    ensures u.EffectiveTotal() == 0
  {
  }

  /** Without a total, negative counts are ignored rather than subtracted. */
  lemma NegativeCountsIgnored(u: CallUsage)
    requires u.totalTokens == None && u.inputTokens < 0
    ensures u.EffectiveTotal() == Max0(u.outputTokens)
  {
  }
}
