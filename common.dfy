/** Value types shared by the page models, and JavaScript's `||` on optional strings. */
module Common {

  datatype Option<+T> = None | Some(value: T)

  /** A router location, as carried in the `from` state of a redirect to the sign-in page. */
  datatype Location = Location(pathname: string)

  /** The lucide-react icons the dashboard picks between. */
  datatype Icon =
    | LayoutDashboardIcon
    | FileTextIcon
    | ImageIcon
    | ScissorsIcon
    | FileUserIcon
    | HistoryIcon

  /** What the identity provider's `getToken()` produced: a token (possibly null or
      empty), or a thrown error. */
  datatype TokenResult = Issued(token: Option<string>) | Threw(message: string)

  /** JavaScript truthiness of a value that is either a string or absent. */
  predicate Truthy(s: Option<string>)
  {
    s.Some? && s.value != ""
  }

  /** The value of `xs[0] || xs[1] || ... || ''`: the first truthy string, else the
      empty string. */
  function FirstTruthy(xs: seq<Option<string>>): (r: string)
    ensures r == "" <==> forall i :: 0 <= i < |xs| ==> !Truthy(xs[i])
    ensures forall i :: 0 <= i < |xs| && Truthy(xs[i]) && (forall j :: 0 <= j < i ==> !Truthy(xs[j]))
                        ==> r == xs[i].value
  {
    if |xs| == 0 then ""
    else if Truthy(xs[0]) then xs[0].value
    else
      var r := FirstTruthy(xs[1..]);
      assert forall i :: 1 <= i < |xs| ==> xs[i] == xs[1..][i - 1];
      r
  }

  /** `a || b || ''`. */
  lemma FirstOfTwo(a: Option<string>, b: Option<string>)
    ensures FirstTruthy([a, b]) == if Truthy(a) then a.value else if Truthy(b) then b.value else ""
  {
    assert [a, b][1..] == [b];
  }
}
