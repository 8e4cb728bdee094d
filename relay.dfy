/** The two relay sends one submission makes: the admin-alert template first,
    then, only once that one has succeeded, the user-acknowledgment template. */
module Relay {
  import opened Payload

  datatype Template = AdminTemplate | UserTemplate

  /** One call to the relay: which template, with which parameters. */
  datatype Send = Send(template: Template, params: TemplateParams)

  /** The sends attempted for one submission, in order, given whether the
      admin send succeeded. The first failing `await` throws, so a failed admin
      send ends the dispatch; the user send's own outcome decides nothing here. */
  function Dispatch(params: TemplateParams, adminOk: bool): (sends: seq<Send>)
    ensures 1 <= |sends| <= 2
    ensures sends[0].template == AdminTemplate
    ensures |sends| == 2 <==> adminOk
    ensures |sends| == 2 ==> sends[1].template == UserTemplate
    ensures forall i :: 0 <= i < |sends| ==> sends[i].params == params
  {
    var admin := Send(AdminTemplate, params);
    if adminOk then [admin, Send(UserTemplate, params)] else [admin]
  }

  /** Both awaited sends resolved; only then does the submission succeed. */
  predicate Delivered(adminOk: bool, userOk: bool) {
    adminOk && userOk
  }

  /** The user template is sent only after the admin send succeeded. */
  lemma UserSendFollowsAdminSuccess(params: TemplateParams, adminOk: bool, i: nat)
    requires i < |Dispatch(params, adminOk)|
    requires Dispatch(params, adminOk)[i].template == UserTemplate
    ensures adminOk && i == 1
    ensures Dispatch(params, adminOk)[0] == Send(AdminTemplate, params)
  {
  }
}
