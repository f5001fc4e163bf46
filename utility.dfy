/**
 * The selection and support-check helpers shared by the renderer: queue
 * family validity, memory-type search, instance extension and layer checks,
 * the GLFW extension list, and the surface-format, supported-format and
 * presentation-mode choices. Everything Vulkan or GLFW would enumerate is an
 * input sequence; enumerations are their numeric Vulkan values.
 */
module Utility {
  import opened Wrappers

  /** `VkFormat` values used by the choices below. */
  type Format = nat
  const FORMAT_UNDEFINED: Format := 0
  const FORMAT_R8G8B8A8_UNORM: Format := 37
  const FORMAT_B8G8R8A8_UNORM: Format := 44

  /** `VkColorSpaceKHR`. */
  type ColorSpace = nat
  const COLOR_SPACE_SRGB_NONLINEAR: ColorSpace := 0

  /** `VkPresentModeKHR`. */
  type PresentMode = nat
  const PRESENT_MODE_IMMEDIATE: PresentMode := 0
  const PRESENT_MODE_MAILBOX: PresentMode := 1
  const PRESENT_MODE_FIFO: PresentMode := 2
  const PRESENT_MODE_FIFO_RELAXED: PresentMode := 3

  /** `VkImageTiling`. */
  type ImageTiling = nat
  const IMAGE_TILING_OPTIMAL: ImageTiling := 0
  const IMAGE_TILING_LINEAR: ImageTiling := 1

  /** `VK_MAX_MEMORY_TYPES`: the capacity of `VkPhysicalDeviceMemoryProperties::memoryTypes`. */
  const MAX_MEMORY_TYPES: nat := 32

  /** A queue family index pair; -1 means "not found yet". */
  datatype QueueFamilyIndices = QueueFamilyIndices(graphicsFamily: int, presentationFamily: int)
  {
    /** Both families have been found. */
    predicate IsValid()
    {
      graphicsFamily >= 0 && presentationFamily >= 0
    }
  }

  /** The value of a freshly declared `QueueFamilyIndices`. */
  const DEFAULT_QUEUE_FAMILY_INDICES := QueueFamilyIndices(-1, -1)

  /** A default-constructed index pair is not valid. */
  lemma DefaultIndicesInvalid()
    ensures !DEFAULT_QUEUE_FAMILY_INDICES.IsValid()
  {
  }

  /** `VkMemoryType`: only its property flags matter here. */
  datatype MemoryType = MemoryType(propertyFlags: bv32, heapIndex: nat)

  /** `VkExtensionProperties`. */
  datatype ExtensionProperties = ExtensionProperties(extensionName: string, specVersion: nat)

  /** `VkLayerProperties`. */
  datatype LayerProperties = LayerProperties(layerName: string, specVersion: nat, implementationVersion: nat, description: string)

  /** `VkSurfaceFormatKHR`. */
  datatype SurfaceFormat = SurfaceFormat(format: Format, colorSpace: ColorSpace)

  /** `VkFormatProperties`: the feature flags of a format for each tiling. */
  datatype FormatProperties = FormatProperties(linearTilingFeatures: bv32, optimalTilingFeatures: bv32, bufferFeatures: bv32)

  /**
   * Memory type `i` is allowed by the bit mask `allowedTypes` (bit `i`) and
   * has every property flag asked for.
   */
  predicate MemoryTypeSuitable(memoryTypes: seq<MemoryType>, allowedTypes: bv32, propertyFlags: bv32, i: nat)
    requires i < |memoryTypes| <= MAX_MEMORY_TYPES
  {
    allowedTypes & (1 << i) != 0 && memoryTypes[i].propertyFlags & propertyFlags == propertyFlags
  }

  /**
   * The first suitable memory type, or 0 when none is suitable (which a
   * caller cannot tell apart from a match at index 0).
   */
  method FindMemoryTypeIndex(memoryTypes: seq<MemoryType>, allowedTypes: bv32, propertyFlags: bv32) returns (r: nat)
    requires |memoryTypes| <= MAX_MEMORY_TYPES
    ensures (exists j :: 0 <= j < |memoryTypes| && MemoryTypeSuitable(memoryTypes, allowedTypes, propertyFlags, j)) ==>
      && r < |memoryTypes| && MemoryTypeSuitable(memoryTypes, allowedTypes, propertyFlags, r)
      && forall j :: 0 <= j < r ==> !MemoryTypeSuitable(memoryTypes, allowedTypes, propertyFlags, j)
    ensures (forall j :: 0 <= j < |memoryTypes| ==> !MemoryTypeSuitable(memoryTypes, allowedTypes, propertyFlags, j)) ==>
      r == 0
  {
    var i := 0;
    while i < |memoryTypes|
      invariant i <= |memoryTypes|
      invariant forall j :: 0 <= j < i ==> !MemoryTypeSuitable(memoryTypes, allowedTypes, propertyFlags, j)
    {
      if allowedTypes & (1 << i) != 0 && memoryTypes[i].propertyFlags & propertyFlags == propertyFlags {
        assert MemoryTypeSuitable(memoryTypes, allowedTypes, propertyFlags, i);
        return i;
      }
      i := i + 1;
    }
    return 0;
  }

  /** Some available extension carries exactly this name. */
  predicate ExtensionAvailable(name: string, extensions: seq<ExtensionProperties>)
  {
    exists e :: e in extensions && e.extensionName == name
  }

  /** Some available layer carries exactly this name. */
  predicate LayerAvailable(name: string, layers: seq<LayerProperties>)
  {
    exists l :: l in layers && l.layerName == name
  }

  /** True iff every requested extension name is among the available extensions. */
  method CheckInstanceExtensionSupport(checkExtensions: seq<string>, extensions: seq<ExtensionProperties>) returns (r: bool)
    ensures r <==> forall c :: c in checkExtensions ==> ExtensionAvailable(c, extensions)
  {
    for i := 0 to |checkExtensions|
      invariant forall k :: 0 <= k < i ==> ExtensionAvailable(checkExtensions[k], extensions)
    {
      var hasExtension := false;
      var j := 0;
      while j < |extensions|
        invariant j <= |extensions| && !hasExtension
        invariant forall m :: 0 <= m < j ==> extensions[m].extensionName != checkExtensions[i]
      {
        if extensions[j].extensionName == checkExtensions[i] {
          assert extensions[j] in extensions;
          hasExtension := true;
          break;
        }
        j := j + 1;
      }
      if !hasExtension {
        assert !ExtensionAvailable(checkExtensions[i], extensions) by {
          forall e | e in extensions
            ensures e.extensionName != checkExtensions[i]
          {
            var m :| 0 <= m < |extensions| && extensions[m] == e;
          }
        }
        assert checkExtensions[i] in checkExtensions;
        return false;
      }
    }
    return true;
  }

  /** True iff every requested layer name is among the available layers. */
  method CheckInstanceLayerSupport(checkLayers: seq<string>, layers: seq<LayerProperties>) returns (r: bool)
    ensures r <==> forall c :: c in checkLayers ==> LayerAvailable(c, layers)
  {
    for i := 0 to |checkLayers|
      invariant forall k :: 0 <= k < i ==> LayerAvailable(checkLayers[k], layers)
    {
      var hasLayer := false;
      var j := 0;
      while j < |layers|
        invariant j <= |layers| && !hasLayer
        invariant forall m :: 0 <= m < j ==> layers[m].layerName != checkLayers[i]
      {
        if layers[j].layerName == checkLayers[i] {
          assert layers[j] in layers;
          hasLayer := true;
          break;
        }
        j := j + 1;
      }
      if !hasLayer {
        assert !LayerAvailable(checkLayers[i], layers) by {
          forall e | e in layers
            ensures e.layerName != checkLayers[i]
          {
            var m :| 0 <= m < |layers| && layers[m] == e;
          }
        }
        assert checkLayers[i] in checkLayers;
        return false;
      }
    }
    return true;
  }

  /** The instance extensions GLFW asks for, copied one by one in order. */
  method GetRequiredExtensions(glfwExtensions: seq<string>) returns (extensions: seq<string>)
    ensures extensions == glfwExtensions
  {
    extensions := [];
    for i := 0 to |glfwExtensions|
      invariant extensions == glfwExtensions[..i]
    {
      extensions := extensions + [glfwExtensions[i]];
    }
  }

  /** An 8-bit RGBA or BGRA unsigned-normalised format in the sRGB non-linear colour space. */
  predicate PreferredSurfaceFormat(f: SurfaceFormat)
  {
    (f.format == FORMAT_R8G8B8A8_UNORM || f.format == FORMAT_B8G8R8A8_UNORM) && f.colorSpace == COLOR_SPACE_SRGB_NONLINEAR
  }

  /** `formats[i]` is the first preferred surface format of the list. */
  predicate FirstPreferred(formats: seq<SurfaceFormat>, i: nat)
  {
    i < |formats| && PreferredSurfaceFormat(formats[i]) && forall j :: 0 <= j < i ==> !PreferredSurfaceFormat(formats[j])
  }

  /** The list a surface reports when it accepts any format. */
  predicate AnyFormatAccepted(formats: seq<SurfaceFormat>)
  {
    |formats| == 1 && formats[0].format == FORMAT_UNDEFINED
  }

  /**
   * RGBA8 with sRGB when the surface accepts any format; otherwise the first
   * preferred entry; otherwise the first entry.
   */
  method ChooseBestSurfaceFormat(formats: seq<SurfaceFormat>) returns (r: SurfaceFormat)
    requires |formats| > 0
    ensures AnyFormatAccepted(formats) ==> r == SurfaceFormat(FORMAT_R8G8B8A8_UNORM, COLOR_SPACE_SRGB_NONLINEAR)
    ensures !AnyFormatAccepted(formats) && (exists i :: 0 <= i < |formats| && PreferredSurfaceFormat(formats[i])) ==>
      exists i: nat :: FirstPreferred(formats, i) && r == formats[i]
    ensures !AnyFormatAccepted(formats) && (forall i :: 0 <= i < |formats| ==> !PreferredSurfaceFormat(formats[i])) ==>
      r == formats[0]
  {
    if |formats| == 1 && formats[0].format == FORMAT_UNDEFINED {
      return SurfaceFormat(FORMAT_R8G8B8A8_UNORM, COLOR_SPACE_SRGB_NONLINEAR);
    }
    for i := 0 to |formats|
      invariant forall j :: 0 <= j < i ==> !PreferredSurfaceFormat(formats[j])
    {
      var format := formats[i];
      if (format.format == FORMAT_R8G8B8A8_UNORM || format.format == FORMAT_B8G8R8A8_UNORM)
        && format.colorSpace == COLOR_SPACE_SRGB_NONLINEAR
      {
        assert FirstPreferred(formats, i);
        return format;
      }
    }
    return formats[0];
  }

  /** The features `properties` offers for `imageTiling` include every flag in `featureFlags`. */
  predicate TilingSupports(properties: FormatProperties, imageTiling: ImageTiling, featureFlags: bv32)
  {
    || (imageTiling == IMAGE_TILING_LINEAR && Covers(properties.linearTilingFeatures, featureFlags))
    || (imageTiling == IMAGE_TILING_OPTIMAL && Covers(properties.optimalTilingFeatures, featureFlags))
  }

  /** Every flag set in `flags` is also set in `features`. */
  predicate Covers(features: bv32, flags: bv32)
  {
    features & flags == flags
  }

  /** `formats[i]` is the first candidate whose features for `imageTiling` include `featureFlags`. */
  predicate FirstSupported(formats: seq<Format>, imageTiling: ImageTiling, featureFlags: bv32,
                           formatProperties: Format -> FormatProperties, i: nat)
  {
    && i < |formats| && TilingSupports(formatProperties(formats[i]), imageTiling, featureFlags)
    && forall j :: 0 <= j < i ==> !TilingSupports(formatProperties(formats[j]), imageTiling, featureFlags)
  }

  const UNSUPPORTED_FORMAT_MESSAGE := "failed to find supported format for given image tiling"

  /**
   * The first candidate whose features for the requested tiling include
   * `featureFlags`, or the runtime error the search throws when none does.
   * `formatProperties` is the device's answer to
   * `vkGetPhysicalDeviceFormatProperties`.
   */
  method ChooseSupportedFormat(formats: seq<Format>, imageTiling: ImageTiling, featureFlags: bv32,
                               formatProperties: Format -> FormatProperties)
    returns (r: Result<Format>)
    ensures r.Ok? ==> exists i: nat :: FirstSupported(formats, imageTiling, featureFlags, formatProperties, i) && formats[i] == r.value
    ensures r.Err? ==> forall i :: 0 <= i < |formats| ==> !TilingSupports(formatProperties(formats[i]), imageTiling, featureFlags)
    ensures r.Err? ==> r.message == UNSUPPORTED_FORMAT_MESSAGE
  {
    for i := 0 to |formats|
      invariant forall j :: 0 <= j < i ==> !TilingSupports(formatProperties(formats[j]), imageTiling, featureFlags)
    {
      var format := formats[i];
      var properties := formatProperties(format);
      if imageTiling == IMAGE_TILING_LINEAR && Covers(properties.linearTilingFeatures, featureFlags) {
        assert FirstSupported(formats, imageTiling, featureFlags, formatProperties, i);
        return Ok(format);
      } else if imageTiling == IMAGE_TILING_OPTIMAL && Covers(properties.optimalTilingFeatures, featureFlags) {
        assert FirstSupported(formats, imageTiling, featureFlags, formatProperties, i);
        return Ok(format);
      }
    }
    return Err(UNSUPPORTED_FORMAT_MESSAGE);
  }

  /** Mailbox when the surface offers it, otherwise FIFO (which Vulkan always offers). */
  method ChooseBestPresentationMode(presentationModes: seq<PresentMode>) returns (r: PresentMode)
    ensures r == PRESENT_MODE_MAILBOX <==> PRESENT_MODE_MAILBOX in presentationModes
    ensures r == PRESENT_MODE_MAILBOX || r == PRESENT_MODE_FIFO
  {
    for i := 0 to |presentationModes|
      invariant PRESENT_MODE_MAILBOX !in presentationModes[..i]
    {
      if presentationModes[i] == PRESENT_MODE_MAILBOX {
        return presentationModes[i];
      }
    }
    assert presentationModes[..|presentationModes|] == presentationModes;
    return PRESENT_MODE_FIFO;
  }
}
