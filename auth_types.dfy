/** The auth module's Redux action types, namespaced by the module's name. */
module AuthTypes {
  import opened Wrappers

  const ModuleNamespace: string := "auth"

  /** concat("auth/"): prefixes an action name with the namespace and a slash. */
  function AddModuleNamespace(name: string): string {
    ModuleNamespace + "/" + name
  }

  const SendSocialLoginCode: string := AddModuleNamespace("SEND_SOCIAL_LOGIN_CODE")
  const ReceiveAuthToken: string := AddModuleNamespace("RECEIVE_AUTH_TOKEN")
  const SetToken: string := AddModuleNamespace("SET_TOKEN")
  const RemoveToken: string := AddModuleNamespace("REMOVE_TOKEN")

  /** The action name of a namespaced type, or None for a type outside the namespace. */
  function StripModuleNamespace(actionType: string): Option<string> {
    var prefix := ModuleNamespace + "/";
    if |actionType| >= |prefix| && actionType[..|prefix|] == prefix then Some(actionType[|prefix|..]) else None
  }

  /** Stripping the prefix recovers the name, and only namespaced types strip: the namespacing is a bijection onto them. */
  lemma StripAddRoundTrip(name: string, actionType: string)
    ensures StripModuleNamespace(AddModuleNamespace(name)) == Some(name)
    ensures StripModuleNamespace(actionType) == Some(name) ==> AddModuleNamespace(name) == actionType
  {
    var prefix := ModuleNamespace + "/";
    assert AddModuleNamespace(name)[..|prefix|] == prefix;
    assert AddModuleNamespace(name)[|prefix|..] == name;
    if StripModuleNamespace(actionType) == Some(name) {
      assert actionType == actionType[..|prefix|] + actionType[|prefix|..];
    }
  }

  /** Distinct names give distinct types. */
  lemma AddModuleNamespaceInjective(a: string, b: string)
    requires AddModuleNamespace(a) == AddModuleNamespace(b)
    ensures a == b
  {
    StripAddRoundTrip(a, AddModuleNamespace(b));
    StripAddRoundTrip(b, AddModuleNamespace(b));
  }

  /** Each of the four types is "auth/" and its name, and no two are equal. */
  lemma ActionTypes()
    ensures SendSocialLoginCode == "auth/SEND_SOCIAL_LOGIN_CODE" && ReceiveAuthToken == "auth/RECEIVE_AUTH_TOKEN"
    ensures SetToken == "auth/SET_TOKEN" && RemoveToken == "auth/REMOVE_TOKEN"
    ensures SendSocialLoginCode != ReceiveAuthToken && SendSocialLoginCode != SetToken && SendSocialLoginCode != RemoveToken
    ensures ReceiveAuthToken != SetToken && ReceiveAuthToken != RemoveToken && SetToken != RemoveToken
  {
  }
}
