/** `OwnTool`: a user function packaged with a description and the keyword
    arguments given at construction. */
module Tools {
  import opened PyValues

  /** A Python callable: its `__name__` and what calling it with positional and
      keyword arguments returns (a text) or raises. */
  datatype Callable = Callable(name: string, body: (seq<PyVal>, seq<(string, PyVal)>) -> Result<string>)

  class OwnTool {
    const func: Callable
    const description: string
    /** The `**params` dict: every keyword argument beyond `func` and `description`. */
    const params: PyVal

    /** `params` is a dict, never `None`. */
    predicate Valid()
    {
      params.PyDict?
    }

    /** `OwnTool(func, description, **kwargs)`: `func` and `description` are kept as
        given; `**params` collects the remaining keywords into a dict, which is never
        `None`, so the `is not None` test always passes and `params` is always set. */
    constructor(func: Callable, description: string, kwargs: seq<(string, PyVal)>)
      ensures this.func == func && this.description == description
      ensures params == PyDict(kwargs)
      ensures Valid()
    {
      this.func := func;
      this.description := description;
      this.params := PyDict(kwargs);
    }

    /** `tool(*args, **kwargs)` forwards to `func` unchanged. */
    function Call(args: seq<PyVal>, kwargs: seq<(string, PyVal)>): Result<string>
    {
      func.body(args, kwargs)
    }
  }

  /** Building a tool with no extra keywords gives `params == {}`; passing
      `params=None` gives `{'params': None}`: in neither case is `params` None. */
  method ParamsAreAlwaysADict(f: Callable) returns (plain: OwnTool, withNone: OwnTool)
    ensures plain.params == PyDict([]) && plain.params != PyNone
    ensures withNone.params == PyDict([("params", PyNone)]) && withNone.params != PyNone
    ensures plain.func == f && withNone.func == f
  {
    plain := new OwnTool(f, "", []);
    withNone := new OwnTool(f, "", [("params", PyNone)]);
  }
}
