/**
 * The renderer's start-up sequence: instance creation with its extension
 * checks, the choice of physical device, the queue-family scan and the
 * logical device, and `initRenderer`'s error handling. The answers of the
 * Vulkan loader, the driver and GLFW are gathered in a `Platform` value.
 *
 * Two behaviours of this file differ from the helpers in `Utility`: its own
 * extension check succeeds when names DIFFER (`if (strcmp(...))`), and the
 * queue-family scan never fills in the presentation family, so its early
 * exit never fires and the last graphics-capable family wins.
 */
module Renderer {
  import opened Wrappers
  import opened Utility

  /** `EXIT_FAILURE` from `<cstdlib>`. */
  const EXIT_FAILURE: int := 1

  /** `VK_EXT_DEBUG_UTILS_EXTENSION_NAME`. */
  const DEBUG_UTILS_EXTENSION_NAME := "VK_EXT_debug_utils"

  /** The renderer's `validationLayers` list. */
  const VALIDATION_LAYERS: seq<string> := ["VK_LAYER_KHRONOS_validation"]

  /** `VK_QUEUE_GRAPHICS_BIT`. */
  const QUEUE_GRAPHICS_BIT: bv32 := 1

  /** `VkResult`; only `VK_SUCCESS` is told apart. */
  type VkResult = int
  const VK_SUCCESS: VkResult := 0

  /** A Vulkan handle; 0 is `VK_NULL_HANDLE`. */
  type Handle = nat
  const NULL_HANDLE: Handle := 0

  const EXTENSIONS_MESSAGE := "vkinstance does not support the required extensions\n"
  const VALIDATION_LAYERS_MESSAGE := "validation layers requested, but not available!\n"
  const CREATE_INSTANCE_MESSAGE := "Failed to create a vulkan instance \n"
  const CREATE_DEVICE_MESSAGE := "Error creating the logical device\n"

  /** `VkQueueFamilyProperties`: its flags and queue count. */
  datatype QueueFamilyProperties = QueueFamilyProperties(queueFlags: bv32, queueCount: nat)

  /** A GPU as `vkEnumeratePhysicalDevices` lists it, with its queue families. */
  datatype PhysicalDevice = PhysicalDevice(handle: Handle, queueFamilies: seq<QueueFamilyProperties>)

  /** What GLFW, the Vulkan loader and the driver answer during start-up. */
  datatype Platform = Platform(
    glfwExtensions: seq<string>,
    availableExtensions: seq<ExtensionProperties>,
    createInstanceResult: VkResult,
    instanceHandle: Handle,
    devices: seq<PhysicalDevice>,
    createDeviceResult: VkResult,
    logicalDeviceHandle: Handle)

  /** Some bit of `bit` is set in `flags`. */
  predicate HasFlag(flags: bv32, bit: bv32)
  {
    flags & bit != 0
  }

  /** A family the scan accepts for graphics: it has queues and the graphics bit. */
  predicate SupportsGraphics(family: QueueFamilyProperties)
  {
    family.queueCount > 0 && HasFlag(family.queueFlags, QUEUE_GRAPHICS_BIT)
  }

  /** The index of the last graphics-capable family, or -1 when there is none. */
  function LastGraphicsFamily(families: seq<QueueFamilyProperties>): (r: int)
    ensures -1 <= r < |families|
    ensures r == -1 <==> forall j :: 0 <= j < |families| ==> !SupportsGraphics(families[j])
    ensures r >= 0 ==> SupportsGraphics(families[r]) && forall j :: r < j < |families| ==> !SupportsGraphics(families[j])
  {
    if |families| == 0 then -1
    else if SupportsGraphics(families[|families| - 1]) then |families| - 1
    else LastGraphicsFamily(families[..|families| - 1])
  }

  /** Some available extension has a name different from `name`. */
  predicate DiffersFromSomeExtension(name: string, extensions: seq<ExtensionProperties>)
  {
    exists e :: e in extensions && e.extensionName != name
  }

  /** What the renderer's own extension check accepts. */
  predicate InvertedSupport(checkExtensions: seq<string>, extensions: seq<ExtensionProperties>)
  {
    forall c :: c in checkExtensions ==> DiffersFromSomeExtension(c, extensions)
  }

  /** The instance extensions the renderer asks for. */
  function RequiredExtensions(glfwExtensions: seq<string>, enableValidationLayers: bool): (r: seq<string>)
  {
    if enableValidationLayers then glfwExtensions + [DEBUG_UTILS_EXTENSION_NAME] else glfwExtensions
  }

  /** The queue families `setupQueueFamilies` scans: none while no device is chosen. */
  function QueueFamiliesOf(device: Option<PhysicalDevice>): seq<QueueFamilyProperties>
  {
    if device.Some? then device.value.queueFamilies else []
  }

  /** How `createInstance` ends. */
  function InstanceOutcome(platform: Platform, enableValidationLayers: bool): Outcome
  {
    if !InvertedSupport(RequiredExtensions(platform.glfwExtensions, enableValidationLayers), platform.availableExtensions) then
      RuntimeError(EXTENSIONS_MESSAGE)
    else if !InvertedSupport(VALIDATION_LAYERS, platform.availableExtensions) then
      RuntimeError(VALIDATION_LAYERS_MESSAGE)
    else if platform.createInstanceResult != VK_SUCCESS then
      RuntimeError(CREATE_INSTANCE_MESSAGE)
    else
      Success
  }

  class PixelRenderer {
    /** False in `NDEBUG` builds, true otherwise. */
    const enableValidationLayers: bool

    var instance: Handle
    /** `mainDevice.physicalDevice`; `None` while it is still `VK_NULL_HANDLE`. */
    var physicalDevice: Option<PhysicalDevice>
    /** `mainDevice.logicalDevice`. */
    var logicalDevice: Handle
    /** The queue family `graphicsQueue` was fetched from; -1 before that. */
    var graphicsQueueFamily: int

    constructor (enableValidationLayers: bool)
      ensures this.enableValidationLayers == enableValidationLayers
      ensures instance == NULL_HANDLE && physicalDevice == None && logicalDevice == NULL_HANDLE
      ensures graphicsQueueFamily == -1
    {
      this.enableValidationLayers := enableValidationLayers;
      instance := NULL_HANDLE;
      physicalDevice := None;
      logicalDevice := NULL_HANDLE;
      graphicsQueueFamily := -1;
    }

    /**
     * Scans the families in order, remembering each graphics-capable index;
     * the presentation family stays -1.
     */
    method SetupQueueFamilies(queueFamilyList: seq<QueueFamilyProperties>) returns (indices: QueueFamilyIndices)
      ensures indices == QueueFamilyIndices(LastGraphicsFamily(queueFamilyList), -1)
      ensures !indices.IsValid()
    {
      indices := DEFAULT_QUEUE_FAMILY_INDICES;
      var i := 0;
      for k := 0 to |queueFamilyList|
        invariant i == k
        invariant indices == QueueFamilyIndices(LastGraphicsFamily(queueFamilyList[..k]), -1)
      {
        var queueFamily := queueFamilyList[k];
        if queueFamily.queueCount > 0 && HasFlag(queueFamily.queueFlags, QUEUE_GRAPHICS_BIT) {
          indices := indices.(graphicsFamily := i);
        }
        assert queueFamilyList[..k + 1][..k] == queueFamilyList[..k];
        if indices.IsValid() {
          break;
        }
        i := i + 1;
      }
      assert queueFamilyList[..|queueFamilyList|] == queueFamilyList;
    }

    /**
     * The renderer's own extension check: a requested name passes as soon as
     * some available name differs from it.
     */
    method CheckInstanceExtensionSupport(checkExtensions: seq<string>, extensions: seq<ExtensionProperties>) returns (r: bool)
      ensures r <==> InvertedSupport(checkExtensions, extensions)
    {
      for i := 0 to |checkExtensions|
        invariant forall k :: 0 <= k < i ==> DiffersFromSomeExtension(checkExtensions[k], extensions)
      {
        var hasExtension := false;
        var j := 0;
        while j < |extensions|
          invariant j <= |extensions| && !hasExtension
          invariant forall m :: 0 <= m < j ==> extensions[m].extensionName == checkExtensions[i]
        {
          if extensions[j].extensionName != checkExtensions[i] {
            assert extensions[j] in extensions;
            hasExtension := true;
            break;
          }
          j := j + 1;
        }
        if !hasExtension {
          assert !DiffersFromSomeExtension(checkExtensions[i], extensions) by {
            forall e | e in extensions
              ensures e.extensionName == checkExtensions[i]
            {
              var m :| 0 <= m < |extensions| && extensions[m] == e;
            }
          }
          assert checkExtensions[i] in checkExtensions;
          return false;
        }
      }
      return true;
    }

    /** Queries the device's properties, features and queue families, and accepts every device. */
    method CheckIfPhysicalDeviceSuitable(device: PhysicalDevice) returns (r: bool)
      ensures r
    {
      var indices := SetupQueueFamilies(device.queueFamilies);
      return true;
    }

    /**
     * Picks `deviceList[0]` as soon as some device is suitable; with no
     * device the error is built but not thrown, and nothing changes.
     */
    method SetupPhysicalDevice(deviceList: seq<PhysicalDevice>)
      modifies this`physicalDevice
      ensures |deviceList| > 0 ==> physicalDevice == Some(deviceList[0])
      ensures |deviceList| == 0 ==> physicalDevice == old(physicalDevice)
    {
      for k := 0 to |deviceList|
        invariant k == 0
        invariant physicalDevice == old(physicalDevice)
      {
        var suitable := CheckIfPhysicalDeviceSuitable(deviceList[k]);
        if suitable {
          physicalDevice := Some(deviceList[0]);
          break;
        }
      }
    }

    /** GLFW's extensions in order, then the debug-utils extension when validation is on. */
    method GetRequiredExtensions(glfwExtensions: seq<string>) returns (extensions: seq<string>)
      ensures |extensions| == |glfwExtensions| + (if enableValidationLayers then 1 else 0)
      ensures extensions[..|glfwExtensions|] == glfwExtensions
      ensures enableValidationLayers ==> extensions[|glfwExtensions|] == DEBUG_UTILS_EXTENSION_NAME
      ensures extensions == RequiredExtensions(glfwExtensions, enableValidationLayers)
    {
      extensions := [];
      for i := 0 to |glfwExtensions|
        invariant extensions == glfwExtensions[..i]
      {
        extensions := extensions + [glfwExtensions[i]];
      }
      if enableValidationLayers {
        extensions := extensions + [DEBUG_UTILS_EXTENSION_NAME];
      }
    }

    /**
     * Checks the required extensions and then the validation layer names,
     * both against the instance EXTENSION list with the inverted check,
     * then creates the instance.
     */
    method CreateInstance(platform: Platform) returns (outcome: Outcome)
      modifies this`instance
      ensures outcome == InstanceOutcome(platform, enableValidationLayers)
      ensures outcome.Success? ==> instance == platform.instanceHandle
      ensures outcome.RuntimeError? ==> instance == old(instance)
    {
      var instanceExtensions := GetRequiredExtensions(platform.glfwExtensions);
      var extensionsSupported := CheckInstanceExtensionSupport(instanceExtensions, platform.availableExtensions);
      if !extensionsSupported {
        return RuntimeError(EXTENSIONS_MESSAGE);
      }
      var layersSupported := CheckInstanceExtensionSupport(VALIDATION_LAYERS, platform.availableExtensions);
      if !layersSupported {
        return RuntimeError(VALIDATION_LAYERS_MESSAGE);
      }
      if platform.createInstanceResult != VK_SUCCESS {
        return RuntimeError(CREATE_INSTANCE_MESSAGE);
      }
      instance := platform.instanceHandle;
      return Success;
    }

    /**
     * Scans the chosen device's queue families (none while no device is
     * chosen), creates the logical device and fetches the graphics queue.
     */
    method CreateLogicalDevice(platform: Platform) returns (outcome: Outcome)
      modifies this`logicalDevice, this`graphicsQueueFamily
      ensures outcome.Success? <==> platform.createDeviceResult == VK_SUCCESS
      ensures outcome.RuntimeError? ==>
        outcome.message == CREATE_DEVICE_MESSAGE && logicalDevice == old(logicalDevice) && graphicsQueueFamily == old(graphicsQueueFamily)
      ensures outcome.Success? ==>
        && logicalDevice == platform.logicalDeviceHandle
        && graphicsQueueFamily == LastGraphicsFamily(QueueFamiliesOf(physicalDevice))
    {
      var indices := SetupQueueFamilies(QueueFamiliesOf(physicalDevice));
      if platform.createDeviceResult != VK_SUCCESS {
        return RuntimeError(CREATE_DEVICE_MESSAGE);
      }
      logicalDevice := platform.logicalDeviceHandle;
      graphicsQueueFamily := indices.graphicsFamily;
      return Success;
    }

    /**
     * Runs the three start-up steps, stopping at the first one that throws:
     * `EXIT_FAILURE` then, 0 otherwise.
     */
    method InitRenderer(platform: Platform) returns (status: int)
      modifies this`instance, this`physicalDevice, this`logicalDevice, this`graphicsQueueFamily
      ensures status == (if InstanceOutcome(platform, enableValidationLayers).RuntimeError? || platform.createDeviceResult != VK_SUCCESS
                         then EXIT_FAILURE else 0)
      ensures InstanceOutcome(platform, enableValidationLayers).RuntimeError? ==>
        && instance == old(instance) && physicalDevice == old(physicalDevice)
        && logicalDevice == old(logicalDevice) && graphicsQueueFamily == old(graphicsQueueFamily)
      ensures InstanceOutcome(platform, enableValidationLayers).Success? ==>
        && instance == platform.instanceHandle
        && physicalDevice == (if |platform.devices| > 0 then Some(platform.devices[0]) else old(physicalDevice))
      ensures InstanceOutcome(platform, enableValidationLayers).Success? && platform.createDeviceResult == VK_SUCCESS ==>
        && logicalDevice == platform.logicalDeviceHandle
        && graphicsQueueFamily == LastGraphicsFamily(QueueFamiliesOf(physicalDevice))
      ensures platform.createDeviceResult != VK_SUCCESS ==>
        logicalDevice == old(logicalDevice) && graphicsQueueFamily == old(graphicsQueueFamily)
    {
      var outcome := CreateInstance(platform);
      if outcome.RuntimeError? {
        return EXIT_FAILURE;
      }
      SetupPhysicalDevice(platform.devices);
      outcome := CreateLogicalDevice(platform);
      if outcome.RuntimeError? {
        return EXIT_FAILURE;
      }
      return 0;
    }
  }

  /**
   * As soon as two available extensions have different names, the inverted
   * check accepts every request, whatever it names.
   */
  lemma {:induction false} InvertedCheckAcceptsAll(checkExtensions: seq<string>, extensions: seq<ExtensionProperties>, a: nat, b: nat)
    requires a < |extensions| && b < |extensions| && extensions[a].extensionName != extensions[b].extensionName
    ensures InvertedSupport(checkExtensions, extensions)
  {
    forall c | c in checkExtensions
      ensures DiffersFromSomeExtension(c, extensions)
    {
      if extensions[a].extensionName != c {
        assert extensions[a] in extensions;
      } else {
        assert extensions[b] in extensions;
      }
    }
  }

  /**
   * The inverted check rejects a requested name exactly when every available
   * extension carries that very name (in particular when none is available),
   * which is when the name-matching check of `Utility` accepts it or there
   * is nothing to match.
   */
  lemma InvertedCheckRejects(name: string, extensions: seq<ExtensionProperties>)
    ensures !DiffersFromSomeExtension(name, extensions) <==> forall j :: 0 <= j < |extensions| ==> extensions[j].extensionName == name
    ensures !DiffersFromSomeExtension(name, extensions) && |extensions| > 0 ==> ExtensionAvailable(name, extensions)
  {
    if forall j :: 0 <= j < |extensions| ==> extensions[j].extensionName == name {
      forall e | e in extensions
        ensures e.extensionName == name
      {
        var m :| 0 <= m < |extensions| && extensions[m] == e;
      }
    }
    if !DiffersFromSomeExtension(name, extensions) && |extensions| > 0 {
      assert extensions[0] in extensions;
    }
  }

  /**
   * With at least two differently named instance extensions, `createInstance`
   * fails only when `vkCreateInstance` itself fails: neither extension check
   * can reject anything.
   */
  lemma InstanceOutcomeWithTwoExtensionNames(platform: Platform, enableValidationLayers: bool, a: nat, b: nat)
    requires a < |platform.availableExtensions| && b < |platform.availableExtensions|
    requires platform.availableExtensions[a].extensionName != platform.availableExtensions[b].extensionName
    ensures InstanceOutcome(platform, enableValidationLayers) ==
      if platform.createInstanceResult == VK_SUCCESS then Success else RuntimeError(CREATE_INSTANCE_MESSAGE)
  {
    InvertedCheckAcceptsAll(RequiredExtensions(platform.glfwExtensions, enableValidationLayers), platform.availableExtensions, a, b);
    InvertedCheckAcceptsAll(VALIDATION_LAYERS, platform.availableExtensions, a, b);
  }

  /** The scan never yields a valid index pair, whatever the families. */
  lemma QueueFamiliesNeverValid(families: seq<QueueFamilyProperties>)
    ensures !QueueFamilyIndices(LastGraphicsFamily(families), -1).IsValid()
  {
  }
}
