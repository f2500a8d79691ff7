/** The argument lists the pages hand to the `useRequest` hook: a URL and an
    optional method, which the hook defaults to GET
    (front/src/hooks/useRequest.ts). */
module Requests {
  import opened Wrappers

  datatype RequestDescriptor = RequestDescriptor(url: string, httpMethod: Option<string>)

  /** The method the request is sent with. */
  function EffectiveMethod(d: RequestDescriptor): (m: string)
    ensures d.httpMethod.None? ==> m == "GET"
    ensures d.httpMethod.Some? ==> m == d.httpMethod.value
  {
    d.httpMethod.GetOr("GET")
  }
}

/** Messages shown to users (front/src/models/Message.ts). */
module MessageModel {
  import opened Wrappers
  import opened Text
  import opened Requests

  const INFO := 0
  const WARNING := 1
  const ERROR := 2

  /** `messageTypeToString`: the colour class of a message type. */
  function MessageTypeToString(t: int): (s: string)
    ensures t == WARNING <==> s == "warning"
    ensures t == ERROR <==> s == "error"
    ensures t != WARNING && t != ERROR <==> s == "info"
  {
    if t == WARNING then "warning" else if t == ERROR then "error" else "info"
  }

  const REQ_VISIBLE_MESSAGES_PARAMS := RequestDescriptor("message/get", None)
  const REQ_ALL_MESSAGES_PARAMS := RequestDescriptor("message/list", None)

  /** The target of a save: a new message, or the message with an id. */
  datatype SaveTarget = Add | Existing(id: int)

  /** `makeSaveMessageParams(id)`. */
  function MakeSaveMessageParams(target: SaveTarget): (d: RequestDescriptor)
    ensures target.Add? ==> d == RequestDescriptor("message/add", Some("POST"))
    ensures target.Existing? ==> EffectiveMethod(d) == "PATCH"
    ensures target.Existing? ==> |d.url| > 8 && d.url[..8] == "message/" && ParseInt(d.url[8..]) == Some(target.id)
  {
    match target
    case Add => RequestDescriptor("message/add", Some("POST"))
    case Existing(id) =>
      ParseIntOfIntToString(id);
      RequestDescriptor("message/" + IntToString(id), Some("PATCH"))
  }

  /** `makeDeleteMessageParams(id)`. */
  function MakeDeleteMessageParams(id: int): (d: RequestDescriptor)
    ensures EffectiveMethod(d) == "DELETE"
    ensures |d.url| > 8 && d.url[..8] == "message/" && ParseInt(d.url[8..]) == Some(id)
  {
    ParseIntOfIntToString(id);
    RequestDescriptor("message/" + IntToString(id), Some("DELETE"))
  }

  /** Saving and deleting one message address the same URL. */
  lemma SaveAndDeleteShareUrl(id: int)
    ensures MakeSaveMessageParams(Existing(id)).url == MakeDeleteMessageParams(id).url
    ensures MakeSaveMessageParams(Existing(id)).url != MakeSaveMessageParams(Add).url
  {
    var digits := IntToString(id);
    NumberUrlIsNotAddUrl(digits);
    assert MakeSaveMessageParams(Existing(id)).url == "message/" + digits;
  }

  /** A message URL followed by a number is never the `add` URL: its ninth
      character is a sign or a digit, not `a`. */
  lemma NumberUrlIsNotAddUrl(digits: string)
    requires digits != [] && (digits[0] == '-' || IsDigit(digits[0]))
    ensures "message/" + digits != "message/add"
  {
    assert ("message/" + digits)[8] == digits[0];
    assert "message/add"[8] == 'a';
  }
}

/** Users (front/src/models/User.ts). */
module UserModel {
  import opened Wrappers
  import opened Text
  import opened Requests

  const REQ_ALL_USERS_PARAMS := RequestDescriptor("user/list", None)
  const REQ_ADD_USER_PARAMS := RequestDescriptor("user/add", Some("POST"))

  /** `user/<id>` */
  function UserUrl(id: int): (url: string)
    ensures |url| > 5 && url[..5] == "user/" && ParseInt(url[5..]) == Some(id)
  {
    ParseIntOfIntToString(id);
    "user/" + IntToString(id)
  }

  /** `makeDeletUserParams(id)`. */
  function MakeDeletUserParams(id: int): (d: RequestDescriptor)
    ensures d.url == UserUrl(id) && EffectiveMethod(d) == "DELETE"
  {
    RequestDescriptor(UserUrl(id), Some("DELETE"))
  }

  /** `makeGetUserParams(id)`: no method given, so the request is a GET. */
  function MakeGetUserParams(id: int): (d: RequestDescriptor)
    ensures d.url == UserUrl(id) && d.httpMethod.None? && EffectiveMethod(d) == "GET"
  {
    RequestDescriptor(UserUrl(id), None)
  }

  /** `makeUpdateUserParams(id)`. */
  function MakeUpdateUserParams(id: int): (d: RequestDescriptor)
    ensures d.url == UserUrl(id) && EffectiveMethod(d) == "PATCH"
  {
    RequestDescriptor(UserUrl(id), Some("PATCH"))
  }

  /** `makePrivateUpdateUserParams(id)`: the backend's `user/lk/:id` route. */
  function MakePrivateUpdateUserParams(id: int): (d: RequestDescriptor)
    ensures EffectiveMethod(d) == "PATCH"
    ensures |d.url| > 8 && d.url[..8] == "user/lk/" && ParseInt(d.url[8..]) == Some(id)
  {
    ParseIntOfIntToString(id);
    RequestDescriptor("user/lk/" + IntToString(id), Some("PATCH"))
  }

  /** Reading, updating and deleting a user address one URL and differ only in method. */
  lemma UserDescriptorsDiffer(id: int)
    ensures MakeGetUserParams(id).url == MakeUpdateUserParams(id).url == MakeDeletUserParams(id).url
    ensures EffectiveMethod(MakeGetUserParams(id)) != EffectiveMethod(MakeUpdateUserParams(id))
    ensures EffectiveMethod(MakeUpdateUserParams(id)) != EffectiveMethod(MakeDeletUserParams(id))
  {
  }
}
