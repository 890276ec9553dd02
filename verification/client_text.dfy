/** The search helpers LabProcessing.jsx and AdminDashboard.jsx each
    define in identical form: the short code shown on badges, the
    normalisation of the search box, and the `q` parameter it becomes. */
module ClientText {
  import opened Common
  import opened Text
  import opened Models
  import opened Search

  /** What an `api` call gives the page: the reply's `data`, or a rejection
      carrying `err.response?.data?.message` when there is one. */
  datatype Fetched<+T> = Success(data: T) | Failure(message: Option<string>)

  /** `err.response?.data?.message || fallback`. */
  function FailureText(message: Option<string>, fallback: string): (r: string)
    ensures fallback != "" ==> r != ""
    ensures Truthy(message) ==> r == message.value
  {
    OrElse(message, fallback)
  }

  /** `shortId`: the last six characters of the id, `''` for a falsy id. */
  function ShortId(id: Option<string>): (r: string)
    ensures |r| <= 6
    ensures !Truthy(id) ==> r == ""
    ensures Truthy(id) ==> EndsWith(id.value, r) && (|r| == 6 || r == id.value)
  {
    TakeLast(OrElse(id, ""), 6)
  }

  /** `normalizeSearch`: `''` for a falsy input, otherwise the trimmed text
      without one leading `#`. */
  function NormalizeSearch(q: Option<string>): (r: string)
    ensures !Truthy(q) ==> r == ""
    ensures Truthy(q) ==>
              var t := Trim(q.value);
              if StartsWith(t, "#") then r == t[1..] else r == t
  {
    if !Truthy(q) then ""
    else
      var s := Trim(q.value);
      if StartsWith(s, "#") then s[1..] else s
  }

  /** `params: qn ? { q: qn } : {}`: no `q` at all for an empty result. */
  function QueryParam(search: Option<string>): (r: Option<string>)
    ensures r.None? <==> NormalizeSearch(search) == ""
    ensures r.Some? ==> r.value == NormalizeSearch(search)
  {
    var qn := NormalizeSearch(search);
    if qn == "" then None else Some(qn)
  }

  /** Normalisation removes the padding and exactly one `#`. */
  lemma NormalizePadded(p: string, m: string, q: string)
    requires AllSpace(p) && AllSpace(q) && NoEdgeSpace(m)
    ensures NormalizeSearch(Some(p + "#" + m + q)) == m
  {
    var t := "#" + m;
    assert NoEdgeSpace(t);
    assert p + "#" + m + q == p + t + q;
    TrimPadded(p, t, q);
    assert t[1..] == m;
  }

  /** Without a leading `#`, normalisation is trimming. */
  lemma NormalizeUnmarked(p: string, m: string, q: string)
    requires AllSpace(p) && AllSpace(q) && NoEdgeSpace(m)
    requires m == [] || m[0] != '#'
    ensures NormalizeSearch(Some(p + m + q)) == m
  {
    var s := p + m + q;
    TrimPadded(p, m, q);
    assert !StartsWith(m, "#") by {
      if m != [] {
        assert m[..1][0] == m[0];
      }
    }
    if s == [] {
      assert m == [];
    } else {
      assert NormalizeSearch(Some(s)) == Trim(s);
    }
  }

  /** Only one `#` goes. */
  lemma NormalizeDoubleHash()
    ensures NormalizeSearch(Some("##x")) == "#x"
  {
    NormalizePadded("", "#x", "");
    assert "" + "#" + "#x" + "" == "##x";
  }

  /** White space after the `#` stays. */
  lemma NormalizeHashSpace()
    ensures NormalizeSearch(Some("# x")) == " x"
  {
    TrimPadded("", "# x", "");
    assert "" + "# x" + "" == "# x";
    assert "# x"[1..] == " x";
  }

  /** A search box holding only white space (or nothing) sends no `q`. */
  lemma BlankSearchSendsNoQuery(s: string)
    requires AllSpace(s)
    ensures QueryParam(Some(s)) == None
  {
    if s != "" {
      TrimPadded(s, "", "");
      assert s + "" + "" == s;
    }
  }

  /** Typing a badge `#` + shortId, padded with white space and in either
      case, sends the short code as `q`, and the backend then finds the
      record it was shown for. */
  lemma {:induction false} BadgeSearchFinds(id: string, typed: string, p: string, q: string)
    requires IsHex24(id)
    requires Lower(typed) == Lower(ShortId(Some(id))) && |typed| == 6
    requires AllSpace(p) && AllSpace(q) && NoEdgeSpace(typed)
    ensures QueryParam(Some(p + "#" + typed + q)) == Some(typed)
    ensures ShortCodeMatch(typed, id)
  {
    NormalizePadded(p, typed, q);
    ShortCodeFindsId(id, typed);
  }
}
