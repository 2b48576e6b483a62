/**
 The two media sources of the OBS program, as seen through requests that can fail
 with or without having been applied.
 */
module Obs {
  datatype Role = LoopRole | MusicRole

  /** The file a source was last given, and whether it may be playing. */
  datatype Source = Source(file: string, running: bool)

  datatype PlayOutcome = Sent | Untouched | MaybeMutated

  /** A file handed to a source. */
  datatype Handover = Handover(role: Role, file: string)

  function Handed(role: Role, files: seq<string>): seq<Handover> {
    seq(|files|, i requires 0 <= i < |files| => Handover(role, files[i]))
  }

  lemma HandedMore(role: Role, files: seq<string>, file: string)
    ensures Handed(role, files + [file]) == Handed(role, files) + [Handover(role, file)]
  {
  }

  class Client {
    var loop: Source
    var music: Source
    /** Every file a source was asked to play, whatever came of it. */
    ghost var given: seq<Handover>
    /** How many requests got no answer so far. */
    ghost var unanswered: nat

    constructor ()
      ensures loop == music == Source("", true) && given == []
    {
      loop, music, given, unanswered := Source("", true), Source("", true), [], 0;
    }

    function At(role: Role): Source
      reads this`loop, this`music
    {
      if role.LoopRole? then loop else music
    }

    /** One request: an answer means it was applied, no answer leaves that open. */
    method Request() returns (applied: bool, answered: bool)
      modifies this`unanswered
      ensures answered ==> applied
      ensures unanswered == old(unanswered) + (if answered then 0 else 1)
    {
      applied, answered :| answered ==> applied;
      if !answered { unanswered := unanswered + 1; }
    }

    /** Settings, mute, centering for the loop source, restart: a failure at any of them may leave the new file behind. */
    method PlaySourceFile(role: Role, path: string) returns (outcome: PlayOutcome)
      modifies this
      ensures given == old(given) + [Handover(role, path)]
      ensures forall other :: other != role ==> At(other) == old(At(other))
      ensures outcome.Sent? ==> At(role) == Source(path, true)
      ensures outcome.Untouched? ==> At(role) == old(At(role))
      ensures outcome.Untouched? <==> path == ""
      ensures outcome.MaybeMutated? ==> At(role) == old(At(role)) || At(role) == Source(path, true)
      ensures outcome.Sent? <==> path != "" && unanswered == old(unanswered)
      ensures old(unanswered) <= unanswered <= old(unanswered) + 1
    {
      given := given + [Handover(role, path)];
      if path == "" { return Untouched; }
      var applied, answered := Request();
      if applied { Put(role, Source(path, true)); }
      if !answered { return MaybeMutated; }
      var _, muted := Request();
      if !muted { return MaybeMutated; }
      if role.LoopRole? {
        var _, centered := Request();
        if !centered { return MaybeMutated; }
      }
      var _, restarted := Request();
      if !restarted { return MaybeMutated; }
      outcome := Sent;
    }

    method StopSource(role: Role) returns (ok: bool)
      modifies this`loop, this`music, this`unanswered
      ensures forall other :: other != role ==> At(other) == old(At(other))
      ensures ok <==> unanswered == old(unanswered)
      ensures old(unanswered) <= unanswered
      ensures At(role).file == old(At(role)).file
      ensures At(role).running ==> old(At(role)).running
      ensures ok ==> !At(role).running
    {
      var applied, answered := Request();
      if applied { Put(role, At(role).(running := false)); }
      ok := answered;
    }

    method Put(role: Role, source: Source)
      modifies this`loop, this`music
      ensures At(role) == source && forall other :: other != role ==> At(other) == old(At(other))
    {
      if role.LoopRole? { loop := source; } else { music := source; }
    }
  }
}
