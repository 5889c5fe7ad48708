/**
 * `DNSCurvePrintLog` (built only with `ENABLE_LIBSODIUM`): the label that
 * names a DNSCurve server in a log message.
 */
module DNSCurve {

  /** The `DNSCURVE_*` server roles; `OtherServer` is any other value. */
  datatype ServerType = MainIPv6 | MainIPv4 | AlternateIPv6 | AlternateIPv4 | OtherServer

  function ServerLabel(st: ServerType): (text: string)
    ensures text == [] <==> st == OtherServer
    ensures text != [] ==> |text| > 7 && text[|text| - 7..] == "Server "
    ensures text != [] ==> text[..4] == (if st in {MainIPv6, AlternateIPv6} then "IPv6" else "IPv4")
  {
    match st
    case MainIPv6 => "IPv6" + " Main" + " Server "
    case MainIPv4 => "IPv4" + " Main" + " Server "
    case AlternateIPv6 => "IPv6" + " Alternate" + " Server "
    case AlternateIPv4 => "IPv4" + " Alternate" + " Server "
    case OtherServer => ""
  }

  /** Distinct roles get distinct labels. */
  lemma ServerLabelInjective(a: ServerType, b: ServerType)
    requires a != b
    ensures ServerLabel(a) != ServerLabel(b)
  {
  }

  /** The source clears its `Message` out-parameter and then overwrites it:
      whatever it held before is discarded. */
  method DNSCurvePrintLog(st: ServerType, message: string) returns (r: string)
    ensures r == ServerLabel(st)
  {
    r := message;
    r := [];
    r := ServerLabel(st);
  }
}
