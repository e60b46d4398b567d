/**
 * The SDL window wrapper of src/C/graphics.c: creating and freeing a window,
 * and the ten-slot sprite cache kept in a linked list with a counter. SDL and
 * SDL_image calls are outside the model; their results are parameters.
 */
module CGraphics {
  import opened LinkedList

  /** The sprite cache holds at most ten sprites. */
  const SpriteSlots := 10
  /** IMG_INIT_JPG. */
  const ImgInitJpg: bv32 := 1

  /** An SDL_Window or SDL_Renderer pointer: NULL or some object. */
  datatype Handle = Null | Handle(id: nat)

  /** The window's sprite counter and the size of its sprite list. */
  datatype Cache = Cache(index: int, size: int)

  /** A call on the sprite cache: load_sprite, whose texture did or did not load, or unload_sprite. */
  datatype Call = Load(textureLoaded: bool) | Unload

  /**
   * What load_sprite returns and leaves behind. The counter is incremented
   * as the index is passed to dereference_index, so it moves on whether or
   * not the lookup succeeds.
   */
  function LoadStep(c: Cache, textureLoaded: bool): (bool, Cache)
  {
    if c.index >= SpriteSlots || !textureLoaded then (false, c)
    else (0 <= c.index <= c.size - 1, Cache(c.index + 1, c.size))
  }

  /** What unload_sprite returns and leaves behind: it refuses only a negative counter. */
  function UnloadStep(c: Cache): (bool, Cache)
  {
    if c.index < 0 then (false, c) else (true, Cache(c.index - 1, c.size - 1))
  }

  function Step(c: Cache, call: Call): (bool, Cache)
  {
    match call
    case Load(loaded) => LoadStep(c, loaded)
    case Unload => UnloadStep(c)
  }

  /** The cache after a sequence of calls. */
  function Run(c: Cache, calls: seq<Call>): Cache
    decreases |calls|
  {
    if calls == [] then c else Run(Step(c, calls[0]).1, calls[1..])
  }

  /** How many of the calls return true. */
  function Accepted(c: Cache, calls: seq<Call>): nat
    decreases |calls|
  {
    if calls == [] then 0
    else (if Step(c, calls[0]).0 then 1 else 0) + Accepted(Step(c, calls[0]).1, calls[1..])
  }

  function Loads(k: nat): seq<Call>
  {
    seq(k, _ => Load(true))
  }

  /**
   * Whatever the calls, a counter that starts between -1 and 10 stays there:
   * loads stop at ten and unloads stop once the counter is negative.
   */
  lemma {:induction false} CounterBounded(c: Cache, calls: seq<Call>)
    requires -1 <= c.index <= SpriteSlots
    ensures -1 <= Run(c, calls).index <= SpriteSlots
    decreases |calls|
  {
    if calls != [] {
      CounterBounded(Step(c, calls[0]).1, calls[1..]);
    }
  }

  /** Loads never change the size of the sprite list. */
  lemma {:induction false} LoadsKeepSize(c: Cache, calls: seq<Call>)
    requires forall k :: 0 <= k < |calls| ==> calls[k].Load?
    ensures Run(c, calls).size == c.size
    decreases |calls|
  {
    if calls != [] {
      LoadsKeepSize(Step(c, calls[0]).1, calls[1..]);
    }
  }

  /**
   * From counter j in a list of ten nodes, k more loaded textures are all
   * accepted while j + k stays within the ten slots.
   */
  lemma {:induction false} LoadsFill(j: int, k: nat)
    requires 0 <= j && j + k <= SpriteSlots
    ensures Run(Cache(j, SpriteSlots), Loads(k)) == Cache(j + k, SpriteSlots)
    ensures Accepted(Cache(j, SpriteSlots), Loads(k)) == k
    decreases k
  {
    if k > 0 {
      assert Loads(k)[1..] == Loads(k - 1);
      LoadsFill(j + 1, k - 1);
    }
  }

  /** With all ten slots in use, the next load is refused and the counter stays. */
  lemma FullCacheRefuses(size: int, loaded: bool)
    ensures LoadStep(Cache(SpriteSlots, size), loaded) == (false, Cache(SpriteSlots, size))
  {
  }

  /**
   * As written, unload_sprite accepts a counter of zero, when no sprite is
   * loaded, and takes it to -1; a load from there fails its lookup but
   * still moves the counter back to zero.
   */
  lemma UnloadFromEmpty(size: int)
    ensures UnloadStep(Cache(0, size)) == (true, Cache(-1, size - 1))
    ensures LoadStep(Cache(-1, size - 1), true) == (false, Cache(0, size - 1))
  {
  }

  class Window {
    var name: string
    var width: int
    var height: int
    var win: Handle
    var ren: Handle
    var spriteList: List
    var index: int
    /** False once the window has been freed. */
    var live: bool

    /** The malloc'd window with the fields create_window sets before it asks SDL for a window. */
    constructor Init(name: string, width: int, height: int, spriteList: List)
      ensures this.name == name && this.width == width && this.height == height
      ensures this.spriteList == spriteList && index == 0 && live
      ensures win == Null && ren == Null
    {
      this.name := name;
      this.width := width;
      this.height := height;
      this.spriteList := spriteList;
      index := 0;
      live := true;
      win := Null;
      ren := Null;
    }

    function CacheState(): Cache
      reads this, spriteList
    {
      Cache(index, spriteList.size)
    }

    /**
     * load_sprite with the texture IMG_LoadTexture returned. The sprite is
     * stored through an uninitialised pointer, since dereference_index never
     * writes the caller's; the model keeps the list unchanged there.
     */
    method LoadSprite(texture: Texture, ghost chain: seq<Node>) returns (ok: bool)
      requires index < SpriteSlots && texture != NoTexture && 0 <= index <= spriteList.size - 1 ==>
                 ForwardTo(chain, index) && chain[0] == spriteList.front
      modifies this`index
      ensures (ok, CacheState()) == LoadStep(old(CacheState()), texture != NoTexture)
    {
      if index >= SpriteSlots {
        return false;
      }
      if texture == NoTexture {
        return false;
      }
      var success := spriteList.DereferenceIndex(index, chain);
      index := index + 1;
      if !success {
        return false;
      }
      return true;
    }

    /** unload_sprite: unless the counter is negative, pops the list's back node and decrements the counter. */
    method UnloadSprite() returns (ok: bool)
      requires index >= 0 ==> spriteList.CanPopBack()
      modifies this`index, spriteList, spriteList.back, if spriteList.back == null then {} else {spriteList.back.previous}
      ensures (ok, CacheState()) == UnloadStep(old(CacheState()))
    {
      if index < 0 {
        return false;
      }
      spriteList.PopBack();
      index := index - 1;
      return true;
    }
  }

  /**
   * create_window with the outcomes of SDL_Init, IMG_Init, malloc,
   * SDL_CreateWindow and SDL_CreateRenderer as parameters. The new window is
   * assigned to the parameter itself, so the caller's window is never
   * written (the method modifies nothing it is given); the result says
   * whether every step succeeded.
   */
  method CreateWindow(win: Window?, name: string, width: int, height: int, sdlInit: int, imgInit: bv32,
                      mallocOk: bool, createdWindow: Handle, createdRenderer: Handle) returns (ok: bool)
    ensures ok <==> sdlInit == 0 && (imgInit | ImgInitJpg) == ImgInitJpg && mallocOk &&
                    createdWindow != Null && createdRenderer != Null
  {
    if sdlInit != 0 {
      return false;
    }
    if (imgInit | ImgInitJpg) != ImgInitJpg {
      return false;
    }
    if !mallocOk {
      return false;
    }
    var list, chain := List.EmptyN(SpriteSlots);
    var local := new Window.Init(name, width, height, list);
    local.win := createdWindow;
    if local.win == Null {
      return false;
    }
    local.ren := createdRenderer;
    if local.ren == Null {
      return false;
    }
    return true;
  }

  /**
   * free_window, as written: SDL_DestroyWindow and SDL_DestroyRenderer get
   * copies of the handles, so the fields are tested unchanged; and after
   * free(window) the pointer is still not NULL. It never returns true, and it
   * frees the window only when both handles were already NULL.
   */
  method FreeWindow(window: Window) returns (ok: bool)
    requires window.live
    modifies window`live
    ensures !ok
    ensures window.live <==> window.win != Null || window.ren != Null
  {
    if window.win != Null {
      return false;
    }
    if window.ren != Null {
      return false;
    }
    window.live := false;
    return false;
  }
}
