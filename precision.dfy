/** `Precision`: the time unit of integer timestamps, as the code the write request carries. */
module Precisions {
  import opened Wrappers

  datatype Precision = NS | US | MS | S {

    /** `Precision::to_string`. */
    function ToString(): (r: string)
      ensures ParseCode(r) == Some(this)
    {
      match this
      case NS => "ns"
      case US => "us"
      case MS => "ms"
      case S => "s"
    }
  }

  /** The precision a code names, if any. */
  function ParseCode(code: string): Option<Precision> {
    if code == "ns" then Some(NS)
    else if code == "us" then Some(US)
    else if code == "ms" then Some(MS)
    else if code == "s" then Some(S)
    else None
  }

  /** The four codes are pairwise distinct. */
  lemma CodesDistinct(p: Precision, q: Precision)
    requires p.ToString() == q.ToString()
    ensures p == q
  {
    assert ParseCode(p.ToString()) == Some(p);
  }
}
