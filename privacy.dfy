/** The sandbox privacy codec: three names carried on the wire as 0, 1 and 2. */
module Privacy {
  import opened Wrappers
  import opened Responses

  datatype SandboxPrivacy = Public | Unlisted | Private

  /** `privacyToNumber`. */
  function ToNumber(p: SandboxPrivacy): (n: int)
    ensures 0 <= n <= 2
    ensures n == 0 <==> p == Public
    ensures n == 1 <==> p == Unlisted
  {
    match p
    case Public => 0
    case Unlisted => 1
    case Private => 2
  }

  /** `privacyFromNumber`: partial, it throws on any other code. */
  function FromNumber(n: int): (r: Result<SandboxPrivacy, Error>)
    ensures r.Success? <==> 0 <= n <= 2
    ensures r.Failure? ==> r.error == InvalidPrivacyNumber(n)
  {
    if n == 0 then Success(Public)
    else if n == 1 then Success(Unlisted)
    else if n == 2 then Success(Private)
    else Failure(InvalidPrivacyNumber(n))
  }

  /** Decoding an encoded privacy gives it back. */
  lemma DecodeEncode(p: SandboxPrivacy)
    ensures FromNumber(ToNumber(p)) == Success(p)
  {
  }

  /** Every code the decoder accepts is the encoding of what it decodes to. */
  lemma EncodeDecode(n: int)
    requires FromNumber(n).Success?
    ensures ToNumber(FromNumber(n).value) == n
  {
  }

  /** Distinct privacies get distinct codes. */
  lemma ToNumberInjective(p: SandboxPrivacy, q: SandboxPrivacy)
    requires ToNumber(p) == ToNumber(q)
    ensures p == q
  {
    DecodeEncode(p);
    DecodeEncode(q);
  }
}
