/** Optional values, standing in for JavaScript's `null`. */
module Options {

  datatype Option<+T> = None | Some(value: T)
}

/**
 Submitted form data as the request handler sees it: an ordered list of
 named entries whose values are either text or an uploaded file, and the
 `get` lookup that returns the first value submitted under a name.
 */
module Form {
  import opened Options

  /** A form entry's value: a string, or a file (any non-string entry). */
  datatype FormValue = Text(text: string) | File(fileName: string)

  datatype Entry = Entry(name: string, value: FormValue)

  /** The submitted entries, in submission order; a name may repeat. */
  type FormData = seq<Entry>

  /** Entry `i` is the first one submitted under `name`. */
  ghost predicate IsFirstEntry(form: FormData, name: string, i: int) {
    && 0 <= i < |form|
    && form[i].name == name
    && forall j :: 0 <= j < i ==> form[j].name != name
  }

  /** `formData.get(name)`: the value of the first entry named `name`, or
      `None` (JavaScript `null`) when no entry has that name. */
  function Get(form: FormData, name: string): (r: Option<FormValue>)
    ensures r.None? <==> forall i :: 0 <= i < |form| ==> form[i].name != name
    ensures r.Some? ==> exists i :: IsFirstEntry(form, name, i) && form[i].value == r.value
  {
    if |form| == 0 then None
    else if form[0].name == name then
      assert IsFirstEntry(form, name, 0);
      Some(form[0].value)
    else
      var r := Get(form[1..], name);
      assert forall i :: 1 <= i < |form| ==> form[i] == form[1..][i - 1];
      assert r.Some? ==> exists i :: IsFirstEntry(form, name, i) && form[i].value == r.value by {
        if r.Some? {
          var k :| IsFirstEntry(form[1..], name, k) && form[1..][k].value == r.value;
          assert IsFirstEntry(form, name, k + 1);
        }
      }
      r
  }

  /** Entries submitted after the first one under a name do not change what
      `get` returns for it; when the name is absent, the later entries decide. */
  lemma {:induction false} GetAppend(a: FormData, b: FormData, name: string)
    ensures Get(a + b, name) == (if Get(a, name).Some? then Get(a, name) else Get(b, name))
  {
    if |a| == 0 {
      assert a + b == b;
    } else {
      assert (a + b)[0] == a[0];
      assert (a + b)[1..] == a[1..] + b;
      GetAppend(a[1..], b, name);
    }
  }

  /** JavaScript truthiness of a `get` result: `null` and the empty string
      are falsy; a non-empty string and a file object are truthy. */
  predicate Truthy(v: Option<FormValue>)
    ensures Truthy(v) <==> v !in {None, Some(Text(""))}
  {
    match v
    case None => false
    case Some(Text(s)) => |s| > 0
    case Some(File(_)) => true
  }

  /** `typeof v === "string"`. */
  predicate IsString(v: Option<FormValue>)
    ensures IsString(v) <==> exists s :: v == Some(Text(s))
  {
    v.Some? && v.value.Text?
  }

  /** A value passes the required-field check and is a string exactly when
      it is a non-empty string; a file passes the first check only. */
  lemma TruthyStringIsNonEmptyText(v: Option<FormValue>)
    ensures Truthy(v) && IsString(v) <==> exists s :: v == Some(Text(s)) && |s| > 0
    ensures Truthy(v) && !IsString(v) <==> exists n :: v == Some(File(n))
  {
  }
}
