/** Vocabulary shared by every module. */
module Base {
  datatype Option<+T> = None | Some(value: T)

  /** A job's name and a provider's instance id; wrapped so that the two never mix. */
  datatype Name = Name(text: string)
  datatype PodId = PodId(text: string)

  /** A provider's answer to "does it exist?": yes, no, or it could not tell. */
  datatype Tri = Yes | No | Unknown

  function Min(a: real, b: real): real { if a <= b then a else b }

  function Max(a: real, b: real): real { if a >= b then a else b }

  /** 2 to the k, also for negative k. */
  function Pow2(k: int): real
    decreases if k < 0 then -k else k
  {
    if k == 0 then 1.0 else if k > 0 then 2.0 * Pow2(k - 1) else Pow2(k + 1) / 2.0
  }
}
