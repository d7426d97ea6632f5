/**
  The confirm rule that guards every destination write: a missing
  destination or identical content is accepted silently; otherwise the diff
  tool shows (destination, staged content) and the operator's answer decides.
  Content equality stands for the SHA-256 checksum comparison.
*/
module Gate {
  import opened Base

  /**
    Decide whether `staged` may replace whatever is at `dest`. The disk is
    never changed; the operator is asked at most once.
  */
  function Confirm(host: Host, tool: string, staged: Bytes, dest: Path, w: World): (s: Step<bool>)
    ensures s.world.fs == w.fs
    ensures s.result == Ok(false) ==>
      |w.answers| > 0 && !w.answers[0] && s.world.answers == w.answers[1..]
    ensures s.result.Err? ==> s.world.answers == w.answers
  {
    if !Exists(w.fs, dest) then Step(w, Ok(true))
    else if dest !in w.fs.files then Step(w, Err(Io(dest)))
    else if w.fs.files[dest].data == staged then Step(w, Ok(true))
    else if tool !in host.installed then Step(w, Err(SpawnFailed(tool)))
    else
      var shown := w.events + [DiffShown(dest, staged)];
      if |w.answers| == 0 then Step(w.(events := shown), Err(PromptFailed))
      else
        var a := w.answers[0];
        Step(World(w.fs, w.answers[1..], shown + [Prompted(dest, a)]), Ok(a))
  }

  /** The two silent cases: nothing is shown, nothing is asked, the write is accepted. */
  lemma ConfirmSilent(host: Host, tool: string, staged: Bytes, dest: Path, w: World)
    requires !Exists(w.fs, dest) || (dest in w.fs.files && w.fs.files[dest].data == staged)
    ensures Confirm(host, tool, staged, dest, w) == Step(w, Ok(true))
  {
  }

  /**
    When the destination is a file with other content, the diff of
    (destination, staged) is shown and then the operator's next answer is
    the decision; without an answer the prompt fails.
  */
  lemma ConfirmAsks(host: Host, tool: string, staged: Bytes, dest: Path, w: World)
    requires dest in w.fs.files && w.fs.files[dest].data != staged
    requires tool in host.installed
    ensures var s := Confirm(host, tool, staged, dest, w);
      if |w.answers| == 0 then
        s.result == Err(PromptFailed) && s.world.events == w.events + [DiffShown(dest, staged)]
      else
        s.result == Ok(w.answers[0]) && s.world.answers == w.answers[1..] &&
        s.world.events == w.events + [DiffShown(dest, staged), Prompted(dest, w.answers[0])]
  {
  }

  /** Something is shown to the operator exactly when the destination is a file whose content differs. */
  lemma ConfirmShowsIffDiffers(host: Host, tool: string, staged: Bytes, dest: Path, w: World)
    ensures var s := Confirm(host, tool, staged, dest, w);
      s.world.events != w.events <==>
        dest in w.fs.files && w.fs.files[dest].data != staged && tool in host.installed
  {
    var s := Confirm(host, tool, staged, dest, w);
    if dest in w.fs.files && w.fs.files[dest].data != staged && tool in host.installed {
      assert |s.world.events| > |w.events|;
    }
  }
}
