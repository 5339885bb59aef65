/** The home screen of `components/HomePage.tsx`: the typewriter that cycles
    the search placeholder through sample names, one character per tick, and
    the submit guard of the search form. Each tick of the `setTimeout` loop is
    one call of `Type`; the two-second pause before deleting is the separate
    event `DeleteTimerFired`. */
module HomePage {
  import opened Js

  /** `randomNames`. */
  const RandomNames: seq<string> := ["taufeeq.algo", "kautilya.algo", "anirudh.algo", "sagar.algo", "______"]

  /** The placeholder shown before the first tick. */
  const InitialPlaceholder: string := "______"

  class Typewriter {
    var searchQuery: string
    var placeholder: string
    var nameIndex: nat
    var isDeleting: bool

    /** `nameIndex` always names one of the sample names. */
    ghost predicate Valid()
      reads this
    {
      nameIndex < |RandomNames|
    }

    /** The placeholder is a prefix of the name being typed or deleted. */
    predicate Settled()
      requires Valid()
      reads this
    {
      placeholder <= RandomNames[nameIndex]
    }

    constructor ()
      ensures Valid()
      ensures searchQuery == "" && placeholder == InitialPlaceholder && nameIndex == 0 && !isDeleting
    {
      searchQuery := "";
      placeholder := InitialPlaceholder;
      nameIndex := 0;
      isDeleting := false;
    }

    /** The search input's `onChange`. */
    method SetSearchQuery(query: string)
      modifies this
      ensures searchQuery == query
      ensures placeholder == old(placeholder) && nameIndex == old(nameIndex) && isDeleting == old(isDeleting)
    {
      searchQuery := query;
    }

    /** One tick of `type()`; nothing happens while the user has typed a
        query. Deleting drops the last character, or moves on to the next
        name once the placeholder is empty; typing adds the next character
        of the current name, or, with the name complete, only schedules the
        switch to deleting. */
    method Type() returns (scheduledDelete: bool)
      requires Valid()
      modifies this
      ensures Valid() && searchQuery == old(searchQuery)
      ensures old(searchQuery) != "" ==>
        && !scheduledDelete
        && placeholder == old(placeholder) && nameIndex == old(nameIndex) && isDeleting == old(isDeleting)
      ensures old(searchQuery) == "" ==>
        var name, len := RandomNames[old(nameIndex)], |old(placeholder)|;
        if old(isDeleting) then
          !scheduledDelete &&
          if len > 0 then
            placeholder == SliceHead(name, len - 1) && nameIndex == old(nameIndex) && isDeleting
          else
            placeholder == "" && nameIndex == (old(nameIndex) + 1) % |RandomNames| && !isDeleting
        else if len < |name| then
          !scheduledDelete && placeholder == name[..len + 1] && nameIndex == old(nameIndex) && !isDeleting
        else
          scheduledDelete && placeholder == old(placeholder) && nameIndex == old(nameIndex) && !isDeleting
      ensures old(Settled()) ==> Settled()
      ensures placeholder != old(placeholder) ==> Settled()
      ensures old(Settled()) && old(isDeleting) && old(searchQuery) == "" && |old(placeholder)| > 0 ==>
        placeholder == old(placeholder)[..|old(placeholder)| - 1]
      ensures !old(isDeleting) && old(searchQuery) == "" && |old(placeholder)| < |RandomNames[old(nameIndex)]| ==>
        Settled() && |placeholder| == |old(placeholder)| + 1
    {
      scheduledDelete := false;
      if searchQuery != "" {
        return;
      }
      var currentName := RandomNames[nameIndex];
      var currentLength := |placeholder|;
      if isDeleting {
        if currentLength > 0 {
          placeholder := SliceHead(currentName, currentLength - 1);
        } else {
          isDeleting := false;
          nameIndex := (nameIndex + 1) % |RandomNames|;
        }
      } else {
        if currentLength < |currentName| {
          placeholder := SliceHead(currentName, currentLength + 1);
        } else {
          scheduledDelete := true;
        }
      }
    }

    /** The delayed `setIsDeleting(true)`. */
    method DeleteTimerFired()
      modifies this
      ensures isDeleting
      ensures searchQuery == old(searchQuery) && placeholder == old(placeholder) && nameIndex == old(nameIndex)
    {
      isDeleting := true;
    }
  }

  /** `handleSubmit`: the trimmed query is forwarded only when it is not
      blank, and what is forwarded is that trimmed query, which neither starts
      nor ends with whitespace. */
  function SubmittedQuery(searchQuery: string): (r: Option<string>)
    ensures r.Some? <==> !AllWhitespace(searchQuery)
    ensures r.Some? ==> r.value == Trim(searchQuery)
    ensures r.Some? ==>
      var q := r.value;
      q != "" && !IsWhitespace(q[0]) && !IsWhitespace(q[|q| - 1])
  {
    TrimEmptyIff(searchQuery);
    TrimEdges(searchQuery);
    if Trim(searchQuery) != "" then Some(Trim(searchQuery)) else None
  }

  /** The initial placeholder is no prefix of the first name, and the first
      tick replaces it by the name's first seven characters. */
  method FirstTickScenario()
  {
    var t := new Typewriter();
    assert !t.Settled() by {
      assert InitialPlaceholder[0] != RandomNames[0][0];
    }
    var scheduled := t.Type();
    assert !scheduled && t.Settled() && t.placeholder == "taufeeq";
  }
}
