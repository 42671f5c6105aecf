/**
 * The gateway's identity: its own callsign and the groups it listens to,
 * as the configuration entry gives them and as the gateway normalises them.
 */
module Identity {
  import opened Wrappers
  import opened Text

  /**
   * `my_call.upper() if my_call else None`: an absent or empty callsign
   * becomes `None`, any other is upper-cased.
   */
  function NormalizeCall(myCall: Option<string>): (r: Option<string>)
    ensures r.None? <==> (myCall.None? || myCall.value == "")
    ensures r.Some? ==> r.value == Upper(myCall.value) && r.value != ""
  {
    if myCall.Some? && myCall.value != "" then Some(Upper(myCall.value)) else None
  }

  /** `[g.upper() for g in groups]`: same order, same length, each group upper-cased. */
  function NormalizeGroups(groups: seq<string>): (r: seq<string>)
    ensures |r| == |groups|
    ensures forall i | 0 <= i < |groups| :: r[i] == Upper(groups[i])
  {
    if groups == [] then [] else [Upper(groups[0])] + NormalizeGroups(groups[1..])
  }

  /** A well-formed group name: non-empty, free of commas, no whitespace at either end. */
  predicate GroupName(g: string) {
    g != "" && ',' !in g && IsStripped(g)
  }

  /** The comprehension filter: keep `p.strip()` for every piece whose strip is non-empty. */
  function StrippedNonBlank(parts: seq<string>): (gs: seq<string>)
    ensures |gs| <= |parts|
    ensures forall i | 0 <= i < |gs| :: gs[i] != "" && IsStripped(gs[i])
  {
    if parts == [] then []
    else
      var g := Strip(parts[0]);
      (if g != "" then [g] else []) + StrippedNonBlank(parts[1..])
  }

  /** The filter keeps exactly the non-blank stripped pieces. */
  lemma {:induction false} StrippedNonBlankMembers(parts: seq<string>, g: string)
    ensures g in StrippedNonBlank(parts) <==> g != "" && exists p | p in parts :: Strip(p) == g
  {
    if parts != [] {
      StrippedNonBlankMembers(parts[1..], g);
      assert forall p | p in parts :: p == parts[0] || p in parts[1..];
      assert parts[0] in parts;
    }
  }

  /**
   * `[g.strip() for g in str(groups_raw).split(",") if g.strip()]`: the
   * comma-separated configuration string as a list of group names.
   */
  function ParseGroups(raw: string): (groups: seq<string>)
    ensures forall i | 0 <= i < |groups| :: GroupName(groups[i])
  {
    var gs := StrippedNonBlank(Split(raw, ','));
    assert forall i | 0 <= i < |gs| :: ',' !in gs[i] by {
      forall i | 0 <= i < |gs| ensures ',' !in gs[i] {
        StrippedNonBlankMembers(Split(raw, ','), gs[i]);
        var p :| p in Split(raw, ',') && Strip(p) == gs[i];
        StripKeeps(p, ',');
      }
    }
    gs
  }

  /** A name is a parsed group exactly when it is the non-blank strip of some comma-separated piece. */
  lemma ParseGroupsMembers(raw: string, g: string)
    ensures g in ParseGroups(raw) <==> g != "" && exists p | p in Split(raw, ',') :: Strip(p) == g
  {
    StrippedNonBlankMembers(Split(raw, ','), g);
  }

  /** Every name of a list of groups written as `a,b,c` is parsed back. */
  lemma ParseJoinedGroups(names: seq<string>, g: string)
    requires |names| >= 1
    requires forall i | 0 <= i < |names| :: GroupName(names[i])
    requires g in names
    ensures g in ParseGroups(Join(names, ','))
  {
    SplitJoin(names, ',');
    StripFixpoint(g);
    ParseGroupsMembers(Join(names, ','), g);
  }

  /** The filter keeps a list of names that are already non-empty and stripped as it is. */
  lemma {:induction false} StrippedNonBlankKeeps(names: seq<string>)
    requires forall i | 0 <= i < |names| :: names[i] != "" && IsStripped(names[i])
    ensures StrippedNonBlank(names) == names
  {
    if names != [] {
      StripFixpoint(names[0]);
      StrippedNonBlankKeeps(names[1..]);
      assert names == [names[0]] + names[1..];
    }
  }

  /** A list of well-formed names written as `a,b,c` is parsed back to exactly that list, in order. */
  lemma ParseJoinedList(names: seq<string>)
    requires |names| >= 1
    requires forall i | 0 <= i < |names| :: GroupName(names[i])
    ensures ParseGroups(Join(names, ',')) == names
  {
    SplitJoin(names, ',');
    StrippedNonBlankKeeps(names);
  }

  /** The gateway's groups after setup: still well-formed names, and upper-case. */
  lemma NormalizedGroupsWellFormed(raw: string)
    ensures forall i | 0 <= i < |NormalizeGroups(ParseGroups(raw))| ::
      var g := NormalizeGroups(ParseGroups(raw))[i];
      GroupName(g) && Upper(g) == g
  {
    var ps := ParseGroups(raw);
    forall i | 0 <= i < |ps|
      ensures GroupName(Upper(ps[i])) && Upper(Upper(ps[i])) == Upper(ps[i])
    {
      UpperKeeps(ps[i], ',');
      UpperStripped(ps[i]);
      UpperIdempotent(ps[i]);
    }
  }
}
