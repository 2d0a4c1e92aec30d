// frontend/src/utils.js: phone normalisation and the display helpers for
// roles and statuses.
module Utils {
  import opened Wrappers
  import opened Models

  predicate StartsWith(s: string, prefix: string) {
    |prefix| <= |s| && s[..|prefix|] == prefix
  }

  /** formatPhone: add the +91 country code unless it is already there. */
  function FormatPhone(phone: string): (r: string)
    ensures StartsWith(r, "+91")
    ensures StartsWith(phone, "+91") ==> r == phone
    ensures !StartsWith(phone, "+91") && StartsWith(phone, "91") ==> r == "+" + phone
    ensures !StartsWith(phone, "+91") && !StartsWith(phone, "91") ==> r == "+91" + phone
    ensures |phone| <= |r| <= |phone| + 3 && r[|r| - |phone|..] == phone
  {
    if StartsWith(phone, "+91") then phone
    else if StartsWith(phone, "91") then "+" + phone
    else "+91" + phone
  }

  /** Normalising twice is normalising once. */
  lemma FormatPhoneIdempotent(phone: string)
    ensures FormatPhone(FormatPhone(phone)) == FormatPhone(phone)
  {
  }

  /** A number already carrying "+91" is kept. */
  lemma FormatPhoneKeepsPlusCode(d: string)
    ensures FormatPhone("+91" + d) == "+91" + d
  {
    assert ("+91" + d)[..3] == "+91";
  }

  /** A number starting with "91" gets only the '+'. */
  lemma FormatPhoneAddsPlus(d: string)
    ensures FormatPhone("91" + d) == "+91" + d
  {
    assert ("91" + d)[..2] == "91";
    assert ("91" + d)[0] == '9';
    assert "+" + ("91" + d) == "+91" + d;
  }

  /** A number with neither prefix gets "+91". */
  lemma FormatPhoneAddsCode(d: string)
    requires !StartsWith(d, "91") && !StartsWith(d, "+")
    ensures FormatPhone(d) == "+91" + d
  {
    if |d| >= 3 {
      assert d[..3][..1] == d[..1];
    }
  }

  /** Two inputs that differ only by the country code normalise alike, so a
      user can log in with or without it. */
  lemma FormatPhoneCountryCode(d: string)
    requires !StartsWith(d, "91") && !StartsWith(d, "+")
    ensures FormatPhone(d) == FormatPhone("91" + d) == FormatPhone("+91" + d) == "+91" + d
  {
    FormatPhoneKeepsPlusCode(d);
    FormatPhoneAddsPlus(d);
    FormatPhoneAddsCode(d);
  }

  /** A ten-digit local number that itself begins with 91 is taken to carry the
      code already and gets only a '+'. */
  lemma FormatPhoneLocalNinetyOne()
    ensures FormatPhone("9123456789") == "+9123456789"
  {
    var s := "9123456789";
    assert s[0] == '9';
    assert !StartsWith(s, "+91") by { assert s[..3][0] != '+'; }
    assert StartsWith(s, "91") by { assert s[..2] == "91"; }
  }

  /** getRoleName: the display name of a role value; any other string is shown as given. */
  function RoleName(role: string): (r: string)
    ensures ParseRole(role).None? ==> r == role
    ensures ParseRole(role) == Some(Dealer) ==> r == "Dealer"
    ensures ParseRole(role) == Some(Retailer) ==> r == "Retailer"
    ensures ParseRole(role) == Some(Customer) ==> r == "Customer"
    ensures ParseRole(role) == Some(Admin) ==> r == "Admin"
  {
    if role == "DEALER" then "Dealer"
    else if role == "RETAILER" then "Retailer"
    else if role == "CUSTOMER" then "Customer"
    else if role == "ADMIN" then "Admin"
    else role
  }

  const Yellow := "bg-yellow-100 text-yellow-800 border-yellow-200"
  const Green := "bg-green-100 text-green-800 border-green-200"
  const Red := "bg-red-100 text-red-800 border-red-200"
  const Blue := "bg-blue-100 text-blue-800 border-blue-200"
  const Gray := "bg-gray-100 text-gray-800 border-gray-200"

  /** The colors table of getStatusColor. */
  const StatusColors: map<string, string> := map[
    "PENDING" := Yellow, "APPROVED" := Green, "REJECTED" := Red,
    "RECEIVED" := Green, "FAILED" := Red, "DELIVERED" := Green,
    "CANCELLED" := Red, "ASSIGNED" := Blue, "OUT_FOR_DELIVERY" := Blue,
    "PAYMENT_RECEIVED" := Green]

  /** getStatusColor: the listed badge classes, gray for anything else. */
  function StatusColor(status: string): (r: string)
    ensures status !in StatusColors ==> r == Gray
    ensures r in {Yellow, Green, Red, Blue, Gray}
  {
    if status in StatusColors then StatusColors[status] else Gray
  }

  /** Every status value the backend stores gets a listed badge, never the gray
      default: pending is yellow, success green, failure red, in-transit blue. */
  lemma StatusColorsCoverEnums()
    ensures forall s :: StatusColor(StatusValue(s)) == (match s case Pending => Yellow case Approved => Green case Rejected => Red)
    ensures forall s :: StatusColor(PaymentStatusValue(s)) == (match s case Pending => Yellow case Received => Green case Failed => Red)
    ensures forall s :: StatusColor(OrderStatusValue(s)) == (match s
                          case Pending => Yellow
                          case PaymentReceived => Green
                          case Assigned => Blue
                          case OutForDelivery => Blue
                          case Delivered => Green
                          case Cancelled => Red)
  {
  }
}
