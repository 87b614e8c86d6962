/** Value-function heads: the layer widths `_get_val_model` hands to a network
    builder, the MLP and CNN value classes that feed it their dimensions and
    defaults, and the registry that maps a name to one of those classes.
    The builders themselves are foreign; a built network is represented by
    the call that would build it. */
module Values {

  datatype Option<T> = None | Some(value: T)

  /** The exceptions raised on the paths modelled here. */
  datatype Error =
    | ValueError          // a value type other than "V", "Qsa" and "Qs"
    | TypeError           // a Q-function asked for while the action dimension is None
    | NotImplementedError // a name the registry does not hold

  datatype Result<T> = Ok(value: T) | Err(error: Error)

  /** The network builders `_get_val_model` may be handed as `arch`. */
  datatype Builder = Mlp | Cnn

  /** The builder call `arch(widths, activation=activation)`. */
  datatype NetSpec = NetSpec(arch: Builder, widths: seq<int>, activation: string)

  /** The activation a value class reads from its keyword arguments, "relu" when absent. */
  function Activation(kwargs: map<string, string>): (a: string)
    ensures "activation" in kwargs ==> a == kwargs["activation"]
    ensures "activation" !in kwargs ==> a == "relu"
  {
    if "activation" in kwargs then kwargs["activation"] else "relu"
  }

  /** `_get_val_model`: the input layer is the state (V(s), Q(s) over all
      actions) or the state and the action side by side (Q(s, a)); the output
      layer is one value (V(s), Q(s, a)) or one value per action (Q(s)); the
      hidden widths sit in between in their order. */
  function GetValModel(arch: Builder, valType: string, stateDim: int, hidden: seq<int>,
                       actionDim: Option<int>, activation: string := "relu"): (r: Result<NetSpec>)
    ensures r.Ok? <==> valType == "V" || (valType in {"Qsa", "Qs"} && actionDim.Some?)
    ensures r == Err(ValueError) <==> valType !in {"V", "Qsa", "Qs"}
    ensures r == Err(TypeError) <==> valType in {"Qsa", "Qs"} && actionDim.None?
    ensures r.Ok? ==> r.value.arch == arch && r.value.activation == activation
    ensures r.Ok? ==> |r.value.widths| == |hidden| + 2 && r.value.widths[1..|hidden| + 1] == hidden
    ensures r.Ok? ==> r.value.widths[0] == if valType == "Qsa" then stateDim + actionDim.value else stateDim
    ensures r.Ok? ==> r.value.widths[|hidden| + 1] == if valType == "Qs" then actionDim.value else 1
  {
    if valType == "V" then
      Ok(NetSpec(arch, [stateDim] + hidden + [1], activation))
    else if valType == "Qsa" then
      if actionDim.None? then Err(TypeError)
      else Ok(NetSpec(arch, [stateDim + actionDim.value] + hidden + [1], activation))
    else if valType == "Qs" then
      if actionDim.None? then Err(TypeError)
      else Ok(NetSpec(arch, [stateDim] + hidden + [actionDim.value], activation))
    else
      Err(ValueError)
  }

  datatype MlpValue = MlpValue(stateDim: int, actionDim: Option<int>, model: NetSpec)

  /** `MlpValue(state_dim, action_dim=None, val_type="V", hidden=(32, 32), **kwargs)`. */
  function NewMlpValue(stateDim: int, actionDim: Option<int> := None, valType: string := "V",
                       hidden: seq<int> := [32, 32], kwargs: map<string, string> := map[]): (r: Result<MlpValue>)
    ensures r.Ok? <==> valType == "V" || (valType in {"Qsa", "Qs"} && actionDim.Some?)
    ensures r.Err? ==> r.error == GetValModel(Mlp, valType, stateDim, hidden, actionDim).error
    ensures r.Ok? ==> r.value.stateDim == stateDim && r.value.actionDim == actionDim
    ensures r.Ok? ==> r.value.model.arch == Mlp && r.value.model.activation == Activation(kwargs)
    ensures r.Ok? ==> r.value.model.widths == GetValModel(Mlp, valType, stateDim, hidden, actionDim).value.widths
  {
    match GetValModel(Mlp, valType, stateDim, hidden, actionDim, Activation(kwargs))
    case Ok(model) => Ok(MlpValue(stateDim, actionDim, model))
    case Err(e) => Err(e)
  }

  /** With every default, an MLP value function maps the state through two
      hidden layers of 32 ReLU units to one value. */
  lemma MlpValueDefaults(stateDim: int)
    ensures NewMlpValue(stateDim) == Ok(MlpValue(stateDim, None, NetSpec(Mlp, [stateDim, 32, 32, 1], "relu")))
  {
    assert [stateDim] + [32, 32] + [1] == [stateDim, 32, 32, 1];
  }

  /** The convolutional trunk `cnn((framestack, 16, 32), activation=...)`. */
  datatype ConvSpec = ConvSpec(channels: seq<int>, activation: string)

  datatype CnnValue = CnnValue(actionDim: int, conv: ConvSpec, fc: NetSpec)

  /** `CNNValue(framestack, action_dim, val_type="Qs", fc_layers=(256,), **kwargs)`.
      `convOutputSize` is the flattened output size the foreign `cnn` builder
      reports; it stands in for the state dimension of the dense head, and the
      head is built without the activation argument. */
  function NewCnnValue(framestack: int, actionDim: int, convOutputSize: int, valType: string := "Qs",
                       fcLayers: seq<int> := [256], kwargs: map<string, string> := map[]): (r: Result<CnnValue>)
    ensures r.Ok? <==> valType in {"V", "Qsa", "Qs"}
    ensures r.Err? ==> r.error == ValueError
    ensures r.Ok? ==> r.value.actionDim == actionDim
    ensures r.Ok? ==> r.value.conv == ConvSpec([framestack, 16, 32], Activation(kwargs))
    ensures r.Ok? ==> r.value.fc.arch == Mlp && r.value.fc.activation == "relu"
    ensures r.Ok? ==> r.value.fc.widths == GetValModel(Mlp, valType, convOutputSize, fcLayers, Some(actionDim)).value.widths
  {
    var conv := ConvSpec([framestack, 16, 32], Activation(kwargs));
    match GetValModel(Mlp, valType, convOutputSize, fcLayers, Some(actionDim))
    case Ok(fc) => Ok(CnnValue(actionDim, conv, fc))
    case Err(e) => Err(e)
  }

  /** With every default, a CNN value function maps the flattened features
      through 256 ReLU units to one value per action, whatever activation the
      keyword arguments ask the trunk for. */
  lemma CnnValueDefaults(framestack: int, actionDim: int, convOutputSize: int, kwargs: map<string, string>)
    ensures NewCnnValue(framestack, actionDim, convOutputSize, kwargs := kwargs)
            == Ok(CnnValue(actionDim, ConvSpec([framestack, 16, 32], Activation(kwargs)),
                           NetSpec(Mlp, [convOutputSize, 256, actionDim], "relu")))
  {
    assert [convOutputSize] + [256] + [actionDim] == [convOutputSize, 256, actionDim];
  }

  /** The classes `value_registry` can hand out. */
  datatype ValueClass = MlpValueClass | CnnValueClass

  const ValueRegistry: map<string, ValueClass> := map["mlp" := MlpValueClass, "cnn" := CnnValueClass]

  /** The registry key of each class. */
  function RegistryName(k: ValueClass): string
  {
    match k
    case MlpValueClass => "mlp"
    case CnnValueClass => "cnn"
  }

  /** `get_value_from_name`: the class registered under `name`, NotImplementedError otherwise. */
  function GetValueFromName(name: string): (r: Result<ValueClass>)
    ensures r.Ok? <==> name == "mlp" || name == "cnn"
    ensures r.Err? ==> r.error == NotImplementedError
    ensures r.Ok? ==> RegistryName(r.value) == name
  {
    if name in ValueRegistry then Ok(ValueRegistry[name]) else Err(NotImplementedError)
  }

  /** Looking a class up by its own key finds that class. */
  lemma RegistryRoundTrip(k: ValueClass)
    ensures GetValueFromName(RegistryName(k)) == Ok(k)
  {
  }
}
