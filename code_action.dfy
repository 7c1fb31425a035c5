/** The code-action feature: the server's code actions arrive as bare names, so each is
    wrapped with a fake id (its position in the list) for the selection view; running the
    selected action sends a data request carrying that id, merged with the editor request. */
module CodeActions {
  import opened Js
  import opened OmniSharpClient

  /** A code action offered in the selection view. */
  datatype TemporaryCodeAction = TemporaryCodeAction(Name: string, Id: int)

  /** The fields of the run-code-action request before the editor request is merged in. */
  function RunCodeActionData(selected: TemporaryCodeAction): Record {
    map["CodeAction" := Num(selected.Id), "WantsTextChanges" := Bool(true)]
  }

  /** The run-code-action request: the selected action's id and the wish for text changes, with
      the request built from the active editor. A live editor adds its context; a dead one adds
      the abort marker, so the request is dropped before it reaches the transport. */
  lemma RunCodeActionRequest(selected: TemporaryCodeAction, active: Option<Editor>)
    requires active.Some?
    ensures MakeRequest(None, active, None).Returned?
    ensures var r := Extend(RunCodeActionData(selected), MakeRequest(None, active, None).value);
      && r["CodeAction"] == Num(selected.Id)
      && r["WantsTextChanges"] == Bool(true)
      && (active.value.alive != Some(false) ==>
            r.Keys == {"CodeAction", "WantsTextChanges"} + ContextKeys
            && RequestPolicy(Some(r)).Forwarded?)
      && (active.value.alive == Some(false) ==> RequestPolicy(Some(r)) == Suppressed)
  {
    var r := Extend(RunCodeActionData(selected), MakeRequest(None, active, None).value);
    if active.value.alive == Some(false) {
      assert Get(r, "abort") == Bool(true);
    } else {
      assert "abort" !in r;
    }
  }

  class CodeAction {
    var editor: Option<Editor>

    constructor ()
      ensures editor == None
    {
      editor := None;
    }

    /** The get-code-actions command: remembers the editor that triggered it (changes are later
        applied to that editor) and requests the code actions for the active editor. */
    method OnGetCodeActions(active: Option<Editor>) returns (request: Outcome<Record>)
      modifies this
      ensures editor == active
      ensures request == MakeRequest(None, active, None)
    {
      editor := active;
      request := MakeRequest(None, active, None);
    }

    /** `WrapCodeActionWithFakeIdGeneration`: pairs every code action name with its index. */
    method WrapCodeActionWithFakeIdGeneration(codeActions: seq<string>) returns (wrapped: seq<TemporaryCodeAction>)
      ensures |wrapped| == |codeActions|
      ensures forall i :: 0 <= i < |wrapped| ==> wrapped[i] == TemporaryCodeAction(codeActions[i], i)
      ensures forall i, j :: 0 <= i < j < |wrapped| ==> wrapped[i].Id < wrapped[j].Id
    {
      wrapped := [];
      var i := 0;
      while i < |codeActions|
        invariant 0 <= i <= |codeActions|
        invariant |wrapped| == i
        invariant forall k :: 0 <= k < i ==> wrapped[k] == TemporaryCodeAction(codeActions[k], k)
      {
        wrapped := wrapped + [TemporaryCodeAction(codeActions[i], i)];
        i := i + 1;
      }
    }
  }
}
