/** The per-unit compiler of crates/rustc_codegen_qir/src/codegen/mod.rs.

    `new` opens an empty IR module named after the codegen unit; `compile`
    walks the unit's items in their deterministic order and predefines each
    one (a forward declaration carrying the item's linkage and visibility).
    No body is translated: the translation entry points are unimplemented,
    so the module handed back holds declarations only. */
module Compiler {
  import opened Core

  /** `MonoItem`: a function instance, a static, or a global `asm!` block. */
  datatype MonoItem = Fn(symbol: string) | Static(symbol: string) | GlobalAsm(id: nat)

  /** `Linkage`. */
  datatype Linkage =
    | External | AvailableExternally | LinkOnceAny | LinkOnceODR | WeakAny | WeakODR
    | Appending | Internal | Private | ExternalWeak | Common

  /** `Visibility`. */
  datatype Visibility = Default | Hidden | Protected

  /** One entry of a unit: the item with its linkage and visibility. */
  datatype UnitItem = UnitItem(item: MonoItem, linkage: Linkage, visibility: Visibility)

  /** `CodegenUnit`, its items already in the deterministic order rustc
      computes for it. */
  datatype CodegenUnit = CodegenUnit(name: string, items: seq<UnitItem>)

  /** The IR module under construction: the forward declarations registered
      so far, and the items whose bodies have been translated. */
  datatype IrModule = IrModule(name: string, declarations: seq<UnitItem>, definitions: seq<MonoItem>)

  /** `QirCodegenCompiler`: the unit being compiled and its module. */
  datatype QirCodegenCompiler = QirCodegenCompiler(codegenUnit: CodegenUnit, irModule: IrModule)

  /** `QirCodegenCompiler::new`: a module named after the unit, with nothing
      declared or defined yet. */
  function New(cgu: CodegenUnit): (c: QirCodegenCompiler)
    ensures c.codegenUnit == cgu
    ensures c.irModule.name == cgu.name
    ensures |c.irModule.declarations| == 0 && |c.irModule.definitions| == 0
  {
    QirCodegenCompiler(cgu, IrModule(cgu.name, [], []))
  }

  /** `MonoItem::predefine`: register the item's forward declaration. */
  function Predefine(m: IrModule, entry: UnitItem): IrModule {
    m.(declarations := m.declarations + [entry])
  }

  /** `QirCodegenCompiler::compile`: predefine every item once, in the
      unit's order, and hand back the same module; it never fails and
      translates no body. */
  method Compile(c: QirCodegenCompiler) returns (r: Result<IrModule, string>)
    ensures r.Ok?
    ensures r.value.name == c.irModule.name
    ensures r.value.declarations == c.irModule.declarations + c.codegenUnit.items
    ensures r.value.definitions == c.irModule.definitions
  {
    var m := c.irModule;
    var items := c.codegenUnit.items;
    for i := 0 to |items|
      invariant m.name == c.irModule.name
      invariant m.declarations == c.irModule.declarations + items[..i]
      invariant m.definitions == c.irModule.definitions
    {
      m := Predefine(m, items[i]);
    }
    assert items[..|items|] == items;
    return Ok(m);
  }
}
