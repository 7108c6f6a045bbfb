/** The module-access guard: behind the MODULES_ENABLED feature flag, a
    request for a module is let through only for a signed-in user of a
    company that has the module enabled, or for an administrator of the
    system company (code "1000"). */
module Middleware {
  import opened Common

  /** The token fields the guard reads. */
  datatype User = User(companyId: Option<string>, isAdmin: bool)

  /** The company fields the guard reads; `modulesEnabled` is absent on a
      document that never had it. */
  datatype CompanyDoc = CompanyDoc(id: string, companyCode: Option<string>, modulesEnabled: Option<map<string, bool>>)

  datatype Access = Allow(user: Option<User>) | Deny(code: int, detail: string)

  /** The feature flag: the environment value, default "false", compared
      case-insensitively with "true". */
  predicate FlagOn(env: Option<string>) {
    Lower(env.GetOr("false")) == "true"
  }

  /** `k` is the position of the first company with this id. */
  predicate FirstWithId(cs: seq<CompanyDoc>, k: int, id: string) {
    0 <= k < |cs| && cs[k].id == id && forall j | 0 <= j < k :: cs[j].id != id
  }

  /** The position of the company `find_one({"id": ...})` returns. */
  function FindCompany(cs: seq<CompanyDoc>, id: string): (r: Option<nat>)
    ensures r.Some? ==> FirstWithId(cs, r.value, id)
    ensures r.None? ==> forall k | 0 <= k < |cs| :: cs[k].id != id
  {
    if cs == [] then None
    else if cs[0].id == id then Some(0)
    else match FindCompany(cs[1..], id)
      case None => None
      case Some(k) => Some(k + 1)
  }

  /** `modules_enabled.get(name, False)` on a company document. */
  predicate ModuleOn(c: CompanyDoc, moduleName: string) {
    var m := c.modulesEnabled.GetOr(map[]);
    moduleName in m && m[moduleName]
  }

  /** `check_module_access(moduleName)` applied to the current user. */
  function CheckModuleAccess(flag: bool, companies: seq<CompanyDoc>, moduleName: string, user: Option<User>): (r: Access)
    ensures !flag ==> r == Allow(user)
    ensures r.Allow? ==> r.user == user && (flag ==> user.Some? && Truthy(user.value.companyId))
    ensures r.Deny? ==> r.code == 401 || r.code == 403 || r.code == 404
  {
    if !flag then Allow(user)
    else if user.None? then Deny(401, "Authentication required")
    else if !Truthy(user.value.companyId) then Deny(403, "Company not found in token")
    else
      var companyId := user.value.companyId.value;
      var found := FindCompany(companies, companyId);
      if user.value.isAdmin && found.Some? && companies[found.value].companyCode == Some("1000") then Allow(user)
      else if found.None? then Deny(404, "Company not found")
      else if !ModuleOn(companies[found.value], moduleName) then
        Deny(403, "Module '" + moduleName + "' is not enabled for your company. Please contact admin.")
      else Allow(user)
  }

  /** What the guard is meant to grant: a signed-in user whose token names
      a company, where the first stored company with that id is the system
      company of an administrator or has the module enabled. */
  ghost predicate Entitled(companies: seq<CompanyDoc>, moduleName: string, user: Option<User>) {
    && user.Some? && Truthy(user.value.companyId)
    && exists k | 0 <= k < |companies| && FirstWithId(companies, k, user.value.companyId.value) ::
         (user.value.isAdmin && companies[k].companyCode == Some("1000")) || ModuleOn(companies[k], moduleName)
  }

  /** A request is let through exactly when the flag is off or the user is
      entitled; what passes through is always the current user unchanged. */
  lemma AccessIff(flag: bool, companies: seq<CompanyDoc>, moduleName: string, user: Option<User>)
    ensures var r := CheckModuleAccess(flag, companies, moduleName, user);
      && (r.Allow? <==> !flag || Entitled(companies, moduleName, user))
      && (r.Allow? ==> r.user == user)
  {
    if flag && user.Some? && Truthy(user.value.companyId) {
      var id := user.value.companyId.value;
      var found := FindCompany(companies, id);
      if found.Some? {
        forall k | 0 <= k < |companies| && FirstWithId(companies, k, id) ensures k == found.value {
        }
      }
    }
  }

  /** The order of the refusals: no user is 401, no company in the token
      is 403, an unknown company is 404, a disabled module is 403. */
  lemma DenialOrder(companies: seq<CompanyDoc>, moduleName: string, user: Option<User>)
    ensures user.None? ==> CheckModuleAccess(true, companies, moduleName, user) == Deny(401, "Authentication required")
    ensures user.Some? && !Truthy(user.value.companyId) ==>
      CheckModuleAccess(true, companies, moduleName, user) == Deny(403, "Company not found in token")
    ensures user.Some? && Truthy(user.value.companyId) && (forall k | 0 <= k < |companies| :: companies[k].id != user.value.companyId.value) ==>
      CheckModuleAccess(true, companies, moduleName, user) == Deny(404, "Company not found")
  {
  }

  /** An administrator of a company other than "1000" gets no more than
      any other user of that company. */
  lemma OtherAdminsFallThrough(companies: seq<CompanyDoc>, moduleName: string, companyId: string)
    requires forall k | 0 <= k < |companies| && companies[k].id == companyId :: companies[k].companyCode != Some("1000")
    ensures var asAdmin := CheckModuleAccess(true, companies, moduleName, Some(User(Some(companyId), true)));
      var asUser := CheckModuleAccess(true, companies, moduleName, Some(User(Some(companyId), false)));
      asAdmin.Allow? == asUser.Allow? && (asAdmin.Deny? ==> asAdmin == asUser)
  {
  }

  /** `get_company_modules`. */
  function GetCompanyModules(flag: bool, c: CompanyDoc): (r: map<string, bool>)
    ensures !flag || c.modulesEnabled.None? ==> r == map["tour" := true, "hotel" := false]
    ensures flag && c.modulesEnabled.Some? ==> r == c.modulesEnabled.value
  {
    if !flag then map["tour" := true, "hotel" := false]
    else c.modulesEnabled.GetOr(map["tour" := true, "hotel" := false])
  }

  /** With the flag on, the map reported for a company that has one agrees
      with the guard on every module: the guard lets its users reach
      exactly the modules the map marks true. */
  lemma ModulesAgreeWithGuard(companies: seq<CompanyDoc>, moduleName: string, user: User)
    requires !user.isAdmin && Truthy(user.companyId)
    requires FindCompany(companies, user.companyId.value).Some?
    requires companies[FindCompany(companies, user.companyId.value).value].modulesEnabled.Some?
    ensures var m := GetCompanyModules(true, companies[FindCompany(companies, user.companyId.value).value]);
      CheckModuleAccess(true, companies, moduleName, Some(user)).Allow? <==> (moduleName in m && m[moduleName])
  {
  }

  /** The flag is read case-insensitively and is off unless set. */
  lemma FlagReading()
    ensures !FlagOn(None)
    ensures FlagOn(Some("TRUE")) && FlagOn(Some("True")) && FlagOn(Some("true"))
    ensures !FlagOn(Some("1")) && !FlagOn(Some("yes"))
  {
    assert Lower("false") == "false";
    assert Lower("TRUE") == "true";
    assert Lower("True") == "true";
    assert Lower("1") == "1";
    assert Lower("yes") == "yes";
  }
}
