/** Prompt templating as both entry points do it with an f-string: a fixed
    prefix, the diff exactly as it is, and a fixed suffix. No quoting or
    escaping is applied to the diff. */
module Template {
  import opened External

  /** The text of the template with `body` in its slot. */
  function Fill(prefix: string, body: string, suffix: string): (text: string) {
    prefix + body + suffix
  }

  /** The slot's content of a text that has the template's prefix and suffix,
      or `None` for a text that does not. */
  function Slot(prefix: string, suffix: string, p: string): (body: Option<string>)
    ensures body.Some? <==> |p| >= |prefix| + |suffix| &&
                            p[..|prefix|] == prefix &&
                            p[|p| - |suffix|..] == suffix
  {
    if |p| >= |prefix| + |suffix| && p[..|prefix|] == prefix && p[|p| - |suffix|..] == suffix
    then Some(p[|prefix|..|p| - |suffix|])
    else None
  }

  /** The filled text keeps the body verbatim between prefix and suffix. */
  lemma FillKeepsBody(prefix: string, body: string, suffix: string)
    ensures |Fill(prefix, body, suffix)| == |prefix| + |body| + |suffix|
    ensures Fill(prefix, body, suffix)[..|prefix|] == prefix
    ensures Fill(prefix, body, suffix)[|prefix|..|prefix| + |body|] == body
    ensures Fill(prefix, body, suffix)[|prefix| + |body|..] == suffix
  {
  }

  /** The slot of a filled text is the body it was filled with. */
  lemma SlotOfFill(prefix: string, body: string, suffix: string)
    ensures Slot(prefix, suffix, Fill(prefix, body, suffix)) == Some(body)
  {
  }

  /** A text that has a slot is the template filled with it. */
  lemma FillOfSlot(prefix: string, suffix: string, p: string)
    requires Slot(prefix, suffix, p).Some?
    ensures Fill(prefix, Slot(prefix, suffix, p).value, suffix) == p
  {
  }

  /** Distinct bodies fill a template into distinct texts. */
  lemma FillInjective(prefix: string, suffix: string, b1: string, b2: string)
    requires Fill(prefix, b1, suffix) == Fill(prefix, b2, suffix)
    ensures b1 == b2
  {
    SlotOfFill(prefix, b1, suffix);
    SlotOfFill(prefix, b2, suffix);
  }

  /** A suffix made of three parts puts its middle part after the prefix, the
      body and the first part. */
  lemma FillRegroup(prefix: string, body: string, head: string, line: string, tail: string)
    ensures Fill(prefix, body, head + line + tail) == (prefix + body + head) + line + tail
  {
  }
}
