/** The module registry of the goja runtime
    (javascript/goja-client/internal/goja/modules.go): a map from module
    names to their source code. */
module GojaModules {

  class ModuleLoader {
    var modules: map<string, string>

    /** `NewModuleLoader`: no module is registered. */
    constructor ()
      ensures modules == map[]
    {
      modules := map[];
    }

    /** `RegisterModule`: the name now maps to the code, replacing any
        earlier code; every other name is untouched. */
    method RegisterModule(name: string, code: string)
      modifies this
      ensures modules == old(modules)[name := code]
      ensures forall other :: other != name ==>
        (other in modules <==> other in old(modules)) &&
        (other in modules ==> modules[other] == old(modules)[other])
    {
      modules := modules[name := code];
    }

    /** `GetModule`: the registered code and true, or "" and false for a
        name never registered. */
    method GetModule(name: string) returns (code: string, found: bool)
      ensures found <==> name in modules
      ensures found ==> code == modules[name]
      ensures !found ==> code == ""
    {
      if name in modules {
        return modules[name], true;
      }
      return "", false;
    }
  }
}
