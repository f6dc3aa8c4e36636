/**
 * The preview step: an editable buffer holding the generated script, the
 * "Copied!" flag, the download of the buffer, the file name suggested in
 * the set-up instructions, and the two buttons that leave the step.
 */
module Preview {
  import opened Text
  import opened Requirements

  /** The file name the script is downloaded under. */
  function ScriptFileName(topic: string): (r: string)
    ensures |r| == |Slug(topic)| + 16
    ensures NoSpace(r) && NoUpper(r)
    ensures r[..|Slug(topic)|] == Slug(topic) && r[|Slug(topic)|..] == "_manim_script.py"
  {
    SlugFileName(topic, "_manim_script.py")
  }

  /** The file name the set-up instructions tell the user to save the script as. */
  function SaveName(topic: string): (r: string)
    ensures |r| == |Slug(topic)| + 3
    ensures NoSpace(r) && NoUpper(r)
    ensures r[..|Slug(topic)|] == Slug(topic) && r[|Slug(topic)|..] == ".py"
  {
    SlugFileName(topic, ".py")
  }

  /**
   * The download name and the save name start with the same slug and differ
   * only in what follows it; both end in ".py".
   */
  lemma {:induction false} NamesShareSlug(topic: string)
    ensures |ScriptFileName(topic)| == |SaveName(topic)| + 13
    ensures ScriptFileName(topic)[..|Slug(topic)|] == SaveName(topic)[..|Slug(topic)|]
    ensures ScriptFileName(topic)[|ScriptFileName(topic)| - 3..] == SaveName(topic)[|SaveName(topic)| - 3..] == ".py"
  {
    var n, a, b := |Slug(topic)|, ScriptFileName(topic), SaveName(topic);
    assert a == a[..n] + a[n..] && b == b[..n] + b[n..];
    assert a[|a| - 3..] == a[n..][13..];
    assert b[|b| - 3..] == b[n..];
  }

  /** The buffer after a series of edits: the last text typed, or the script itself. */
  function Buffer(script: string, edits: seq<string>): string {
    if edits == [] then script else edits[|edits| - 1]
  }

  /** What a button leaving the step asks the wizard to do. */
  datatype Leave = Approve | Back

  class ScriptPreview {
    const requirements: VideoRequirements
    const script: string
    var editedScript: string
    var copied: bool
    /** The texts typed into the editor so far, oldest first. */
    ghost var edits: seq<string>

    /** The buffer always holds the latest edit, or the generated script before any edit. */
    ghost predicate Valid()
      reads this
    {
      editedScript == Buffer(script, edits)
    }

    constructor (requirements: VideoRequirements, script: string)
      ensures Valid()
      ensures this.requirements == requirements && this.script == script
      ensures editedScript == script && !copied && edits == []
    {
      this.requirements := requirements;
      this.script := script;
      editedScript := script;
      copied := false;
      edits := [];
    }

    /** The editor's change handler: the new text replaces the whole buffer. */
    method Edit(text: string)
      requires Valid()
      modifies this
      ensures Valid()
      ensures editedScript == text && edits == old(edits) + [text]
      ensures copied == old(copied)
    {
      editedScript := text;
      edits := edits + [text];
    }

    /** The copy button: the buffer goes to the clipboard and the flag is raised. */
    method HandleCopy() returns (clipboard: string)
      requires Valid()
      modifies this
      ensures Valid()
      ensures clipboard == editedScript && copied
      ensures editedScript == old(editedScript) && edits == old(edits)
    {
      clipboard := editedScript;
      copied := true;
    }

    /** The timer set by the copy button lowers the flag again. */
    method ResetCopied()
      requires Valid()
      modifies this
      ensures Valid()
      ensures !copied
      ensures editedScript == old(editedScript) && edits == old(edits)
    {
      copied := false;
    }

    /** The download button: the current buffer, under the slug of the topic. */
    method HandleDownloadScript() returns (payload: string, name: string)
      requires Valid()
      ensures payload == Buffer(script, edits)
      ensures name == ScriptFileName(requirements.topic)
      ensures NoSpace(name) && NoUpper(name)
    {
      payload := editedScript;
      name := ScriptFileName(requirements.topic);
    }

    /** The back button: only its own callback; the buffer stays. */
    method HandleBack() returns (leave: Leave)
      ensures leave == Back
    {
      leave := Back;
    }

    /** The proceed button: only its own callback; the buffer stays. */
    method HandleApprove() returns (leave: Leave)
      ensures leave == Approve
    {
      leave := Approve;
    }
  }
}
