/** The search field component (app/components/SearchInput.tsx): a search navigates to the
    search screen only for a value that is not blank, and the field's border shows whether
    it has focus. */
module SearchInput {
  import opened Common

  /** handleSearch's decision: the route pushed for a value, if any. The route carries the
      value as typed, surrounding white space included. */
  function SearchRoute(value: string): (route: Option<string>)
    ensures route.Some? <==> !IsBlank(value)
    ensures route.Some? ==> route.value == "/search/" + value
  {
    TrimEmptyIffBlank(value);
    if Trim(value) != [] then Some("/search/" + value) else None
  }

  /** The route ends in exactly the value, so the search screen receives it unchanged. */
  lemma SearchRouteKeepsValue(value: string)
    requires !IsBlank(value)
    ensures var route := SearchRoute(value).value;
            && |route| == |value| + 8
            && route[8..] == value
  {
  }

  /** The field's state: whether it has focus, and the routes pushed so far. */
  class SearchField {
    var isFocused: bool
    var pushed: seq<string>

    /** A new field has no focus and has navigated nowhere. */
    constructor ()
      ensures !isFocused && pushed == []
    {
      isFocused := false;
      pushed := [];
    }

    method OnFocus()
      modifies this
      ensures isFocused && pushed == old(pushed)
    {
      isFocused := true;
    }

    method OnBlur()
      modifies this
      ensures !isFocused && pushed == old(pushed)
    {
      isFocused := false;
    }

    /** handleSearch: pushes the route for a value that is not blank, and nothing
      otherwise. */
    method HandleSearch(value: string)
      modifies this
      ensures isFocused == old(isFocused)
      ensures IsBlank(value) ==> pushed == old(pushed)
      ensures !IsBlank(value) ==> pushed == old(pushed) + ["/search/" + value]
    {
      var route := SearchRoute(value);
      if route.Some? {
        pushed := pushed + [route.value];
      }
    }

    /** Return on the keyboard runs the same search as the button. */
    method OnSubmitEditing(value: string)
      modifies this
      ensures isFocused == old(isFocused)
      ensures pushed == old(pushed) + (if IsBlank(value) then [] else ["/search/" + value])
    {
      HandleSearch(value);
    }

    /** The search button. */
    method OnPressSearch(value: string)
      modifies this
      ensures isFocused == old(isFocused)
      ensures pushed == old(pushed) + (if IsBlank(value) then [] else ["/search/" + value])
    {
      HandleSearch(value);
    }

    /** The border colour class: the secondary colour exactly while focused. */
    function BorderClass(): (c: string)
      reads this
      ensures c == "border-secondary" <==> isFocused
      ensures c == "border-black-200" <==> !isFocused
    {
      if isFocused then "border-secondary" else "border-black-200"
    }
  }

  /** Focus shows the secondary border; a blur after it brings back the plain one, and
      neither navigates. */
  method FocusThenBlur(f: SearchField)
    modifies f
    ensures !f.isFocused && f.BorderClass() == "border-black-200"
    ensures f.pushed == old(f.pushed)
  {
    f.OnFocus();
    assert f.BorderClass() == "border-secondary";
    f.OnBlur();
  }
}
