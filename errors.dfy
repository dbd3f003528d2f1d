/** The errors the command returns (or, for a load failure, logs before exiting). */
module Errors {

  /** Which endpoint flag a format error is about. */
  datatype Field = Upstream | Frontend | Backend

  /** Which endpoint grammar the string was read with. */
  datatype Form = UrlForm | HostPortForm

  datatype Error =
    | LoadFailed(file: string, cause: string)
    | ClientFieldsRequired
    | EndpointFormat(field: Field, form: Form)
    | FrontendBackendRequired
    | NoClientConfigured

  function FieldName(f: Field): string
  {
    match f
    case Upstream => "upstream"
    case Frontend => "frontend"
    case Backend => "backend"
  }

  /** The text the Go code formats for each error. */
  function Message(e: Error): (m: string)
    ensures e.LoadFailed? ==> "failed to load config (" + e.file + ", " <= m
    ensures e.EndpointFormat? ==> FieldName(e.field) + " format error, " <= m
    ensures e == ClientFieldsRequired || e == NoClientConfigured ==>
      "client_id, client_secret, redirect_uri are required (" <= m
  {
    match e
    case LoadFailed(file, cause) => "failed to load config (" + file + ", " + cause + ")"
    case ClientFieldsRequired => "client_id, client_secret, redirect_uri are required (1)"
    case EndpointFormat(field, UrlForm) => FieldName(field) + " format error, protocol://host:port"
    case EndpointFormat(field, HostPortForm) => FieldName(field) + " format error, host:port"
    case FrontendBackendRequired => "frontend and backend are required"
    case NoClientConfigured => "client_id, client_secret, redirect_uri are required (2)"
  }

  /** The length of each message, a measure that separates most of them. */
  lemma MessageLength(e: Error)
    requires !e.LoadFailed?
    ensures |Message(e)| == match e
      case EndpointFormat(f, UrlForm) => |FieldName(f)| + 35
      case EndpointFormat(f, HostPortForm) => |FieldName(f)| + 24
      case FrontendBackendRequired => 33
      case _ => 55
  {
  }

  /** Every error the resolver itself returns has a message of its own. */
  lemma MessagesDistinct(e1: Error, e2: Error)
    requires !e1.LoadFailed? && !e2.LoadFailed?
    requires e1 != e2
    ensures Message(e1) != Message(e2)
  {
    MessageLength(e1);
    MessageLength(e2);
    var m1, m2 := Message(e1), Message(e2);
    if |m1| == |m2| {
      if e1.EndpointFormat? {
        assert m1[0] != m2[0];
      } else {
        assert m1[53] != m2[53];
      }
    }
  }
}
